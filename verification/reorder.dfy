/** Drag-and-drop reordering of the playlist editor. The editor shows the
    enabled items with audio sorted by `order` and reports a drag as a source
    and a destination index into that list; the provider moves the item and
    rewrites the `order` of every listed item to its new position.

    The provider as written applies the indices to the enabled items with audio
    in PLAYLIST order instead of the displayed order (`ReorderAsWritten`);
    whenever the two orders differ a drag can move the wrong item. `Reorder`
    applies them to the displayed list, and `ReorderMovesDisplayed` proves the
    editor then shows exactly the dragged arrangement. */
module Reorder {
  import opened Seqs
  import opened Items

  /** Shown in the editor: enabled and with audio. */
  predicate Displayed(i: Item) {
    i.enabled && HasAudio(i)
  }

  /** `enabledItemsWithAudio`: what the editor shows, in `order`. */
  function DisplayList(playlist: seq<Item>): (r: seq<Item>)
    ensures SortedBy(r, OrderKey)
    ensures multiset(r) == multiset(Filter(playlist, Displayed))
  {
    SortByOrder(Filter(playlist, Displayed))
  }

  /** The start position `Array.prototype.splice` uses for index `i` in a list of `len`:
      a negative index counts from the end, and any index is cut to [0, len]. */
  function SpliceStart(i: int, len: nat): (k: nat)
    ensures k <= len
    ensures 0 <= i <= len ==> k == i
  {
    if i < 0 then (if len + i < 0 then 0 else len + i) else if i > len then len else i
  }

  /** `splice(a, 1)` followed by `splice(b, 0, moved)`: the element at `a` now sits at
      `b`, the others keep their relative order. */
  function Move<T>(s: seq<T>, a: nat, b: nat): (r: seq<T>)
    requires a < |s| && b < |s|
    ensures |r| == |s|
    ensures multiset(r) == multiset(s)
    ensures r[b] == s[a]
    ensures r[..b] + r[b + 1..] == s[..a] + s[a + 1..]
  {
    var x := s[a];
    var rest := s[..a] + s[a + 1..];
    assert s == s[..a] + [x] + s[a + 1..];
    assert multiset(s) == multiset(rest) + multiset{x};
    var r := rest[..b] + [x] + rest[b..];
    assert rest == rest[..b] + rest[b..];
    assert multiset(r) == multiset(rest[..b]) + multiset{x} + multiset(rest[b..]);
    assert r[..b] == rest[..b];
    assert r[b + 1..] == rest[b..];
    r
  }

  /** `newOrderMap`: each listed id to its position; a later duplicate overwrites an
      earlier one, as `Map.set` does. */
  function Positions(s: seq<Item>): (m: map<string, int>)
    ensures forall k :: 0 <= k < |s| ==> s[k].id in m
    ensures forall id :: id in m ==> 0 <= m[id] < |s| && s[m[id]].id == id
  {
    if |s| == 0 then map[]
    else Positions(s[..|s| - 1])[s[|s| - 1].id := |s| - 1]
  }

  /** With distinct ids every listed item maps to its own position. */
  lemma PositionsOfDistinct(s: seq<Item>, k: nat)
    requires DistinctIds(s)
    requires k < |s|
    ensures s[k].id in Positions(s) && Positions(s)[s[k].id] == k
  {
  }

  /** The item with its `order` replaced when the map has its id. */
  function WithOrder(m: map<string, int>): Item -> Item {
    (i: Item) => if i.id in m then i.(order := Some(m[i.id])) else i
  }

  /** The playlist update: every item whose id has a new position gets it as `order`. */
  function WithOrders(playlist: seq<Item>, m: map<string, int>): (r: seq<Item>)
    ensures |r| == |playlist|
    ensures forall k :: 0 <= k < |playlist| ==> r[k] == playlist[k].(order := r[k].order)
    ensures forall k :: 0 <= k < |playlist| && playlist[k].id !in m ==> r[k] == playlist[k]
    ensures forall k :: 0 <= k < |playlist| && playlist[k].id in m ==> r[k].order == Some(m[playlist[k].id])
  {
    Map(playlist, WithOrder(m))
  }

  /** `newOrderMap` after a drag from `src` to `dst` within `list`: every listed id has
      a new position, and with distinct ids the dragged item's is the destination. */
  function NewOrders(list: seq<Item>, src: int, dst: int): (m: map<string, int>)
    requires SpliceStart(src, |list|) < |list|
    ensures forall id :: id in m <==> id in ItemIds(list)
    ensures forall id :: id in m ==> 0 <= m[id] < |list|
    ensures DistinctIds(list) ==> m[list[SpliceStart(src, |list|)].id] == SpliceStart(dst, |list| - 1)
  {
    var a := SpliceStart(src, |list|);
    var b := SpliceStart(dst, |list| - 1);
    var moved := Move(list, a, b);
    PositionsOfPermutation(list, moved);
    if DistinctIds(list) then
      DistinctIdsPermutation(list, moved);
      PositionsOfDistinct(moved, b);
      Positions(moved)
    else Positions(moved)
  }

  /** A reordering of `list` has a position for exactly the ids `list` holds. */
  lemma PositionsOfPermutation(list: seq<Item>, moved: seq<Item>)
    requires multiset(moved) == multiset(list)
    ensures forall id :: id in Positions(moved) <==> id in ItemIds(list)
  {
    var m := Positions(moved);
    forall id | id in m
      ensures id in ItemIds(list)
    {
      var k := m[id];
      assert moved[k] in multiset(list);
      var j :| 0 <= j < |list| && list[j] == moved[k];
      assert ItemIds(list)[j] == id;
    }
    forall id | id in ItemIds(list)
      ensures id in m
    {
      var j :| 0 <= j < |list| && ItemIds(list)[j] == id;
      assert list[j] in multiset(moved);
      var k :| 0 <= k < |moved| && moved[k] == list[j];
    }
  }

  /** The common step: move within `list`, then give every listed item its position.
      Only `order` changes, and only for items whose id is listed; those get their id's
      position in the moved list. */
  function ApplyMove(playlist: seq<Item>, list: seq<Item>, src: int, dst: int): (r: Option<seq<Item>>)
    ensures r.None? <==> SpliceStart(src, |list|) >= |list|
    ensures r.Some? ==> |r.value| == |playlist|
    ensures r.Some? ==> forall k :: 0 <= k < |playlist| ==> r.value[k] == playlist[k].(order := r.value[k].order)
    ensures r.Some? ==> forall k :: 0 <= k < |playlist| && playlist[k].id !in ItemIds(list) ==> r.value[k] == playlist[k]
    ensures r.Some? ==> forall k :: 0 <= k < |playlist| && playlist[k].id in ItemIds(list) ==>
                          r.value[k].order == Some(NewOrders(list, src, dst)[playlist[k].id])
  {
    if SpliceStart(src, |list|) >= |list| then None
    else Some(WithOrders(playlist, NewOrders(list, src, dst)))
  }

  /** `reorderPlaylist` as written: the same index does nothing; otherwise the indices
      address the enabled items with audio in playlist order. A source index past the
      end makes the provider throw (`None`) before the playlist is touched. */
  function ReorderAsWritten(playlist: seq<Item>, src: int, dst: int): (r: Option<seq<Item>>)
    ensures src == dst ==> r == Some(playlist)
    ensures src != dst ==> (r.None? <==> SpliceStart(src, |Filter(playlist, Displayed)|) >= |Filter(playlist, Displayed)|)
    ensures r.Some? ==> |r.value| == |playlist|
    ensures r.Some? ==> forall k :: 0 <= k < |playlist| ==> r.value[k] == playlist[k].(order := r.value[k].order)
    ensures r.Some? ==> forall k :: 0 <= k < |playlist| && playlist[k].id !in ItemIds(Filter(playlist, Displayed)) ==> r.value[k] == playlist[k]
    ensures src != dst && r.Some? ==> forall k :: 0 <= k < |playlist| && playlist[k].id in ItemIds(Filter(playlist, Displayed)) ==>
                                        r.value[k].order == Some(NewOrders(Filter(playlist, Displayed), src, dst)[playlist[k].id])
  {
    if src == dst then Some(playlist) else ApplyMove(playlist, Filter(playlist, Displayed), src, dst)
  }

  /** `reorderPlaylist` with the indices applied to the displayed list. */
  function Reorder(playlist: seq<Item>, src: int, dst: int): (r: Option<seq<Item>>)
    ensures src == dst ==> r == Some(playlist)
    ensures src != dst ==> (r.None? <==> SpliceStart(src, |DisplayList(playlist)|) >= |DisplayList(playlist)|)
    ensures r.Some? ==> |r.value| == |playlist|
    ensures r.Some? ==> forall k :: 0 <= k < |playlist| ==> r.value[k] == playlist[k].(order := r.value[k].order)
    ensures r.Some? ==> forall k :: 0 <= k < |playlist| && playlist[k].id !in ItemIds(DisplayList(playlist)) ==> r.value[k] == playlist[k]
    ensures src != dst && r.Some? ==> forall k :: 0 <= k < |playlist| && playlist[k].id in ItemIds(DisplayList(playlist)) ==>
                                        r.value[k].order == Some(NewOrders(DisplayList(playlist), src, dst)[playlist[k].id])
  {
    if src == dst then Some(playlist) else ApplyMove(playlist, DisplayList(playlist), src, dst)
  }

  /** Each item with its position as `order`. */
  function Renumber(s: seq<Item>): (r: seq<Item>)
    ensures |r| == |s|
    ensures forall k :: 0 <= k < |s| ==> r[k] == s[k].(order := Some(k))
  {
    seq(|s|, k requires 0 <= k < |s| => s[k].(order := Some(k)))
  }

  /** Keys strictly increasing along the sequence. */
  predicate StrictlySorted(s: seq<Item>) {
    forall i, j :: 0 <= i < j < |s| ==> OrderKey(s[i]) < OrderKey(s[j])
  }

  lemma SameHeadSameTails(a: seq<Item>, b: seq<Item>)
    requires |a| > 0 && |b| > 0 && a[0] == b[0]
    requires multiset(a) == multiset(b)
    ensures multiset(a[1..]) == multiset(b[1..])
  {
    assert a == [a[0]] + a[1..] && b == [b[0]] + b[1..];
    assert multiset(a[1..]) == multiset(a) - multiset{a[0]};
    assert multiset(b[1..]) == multiset(b) - multiset{b[0]};
  }

  /** Two orderings of the same elements, both by `order`, are the same sequence when
      one of them has strictly increasing keys. */
  lemma {:induction false} SortedUnique(a: seq<Item>, b: seq<Item>)
    requires SortedBy(a, OrderKey) && StrictlySorted(b)
    requires multiset(a) == multiset(b)
    ensures a == b
    decreases |a|
  {
    assert |a| == |multiset(a)| == |multiset(b)| == |b|;
    if |a| > 0 {
      SameHead(a, b);
      SameHeadSameTails(a, b);
      TailsStaySorted(a, b);
      SortedUnique(a[1..], b[1..]);
      assert a == [a[0]] + a[1..] && b == [b[0]] + b[1..];
    }
  }

  /** The first element of an ordering by `order` is the least key, which a strictly
      sorted permutation also puts first. */
  lemma SameHead(a: seq<Item>, b: seq<Item>)
    requires |a| > 0 && |a| == |b|
    requires SortedBy(a, OrderKey) && StrictlySorted(b)
    requires multiset(a) == multiset(b)
    ensures a[0] == b[0]
  {
    assert a[0] in multiset(b);
    var j :| 0 <= j < |b| && b[j] == a[0];
    assert b[0] in multiset(a);
    var i :| 0 <= i < |a| && a[i] == b[0];
    assert OrderKey(a[0]) <= OrderKey(a[i]);
    assert OrderKey(b[j]) <= OrderKey(b[0]);
    assert j == 0;
  }

  lemma TailsStaySorted(a: seq<Item>, b: seq<Item>)
    requires |a| > 0 && |b| > 0
    requires SortedBy(a, OrderKey) && StrictlySorted(b)
    ensures SortedBy(a[1..], OrderKey) && StrictlySorted(b[1..])
  {
    forall i, j | 0 <= i < j < |a| - 1
      ensures OrderKey(a[1..][i]) <= OrderKey(a[1..][j])
    {
      assert a[1..][i] == a[i + 1] && a[1..][j] == a[j + 1];
    }
    forall i, j | 0 <= i < j < |b| - 1
      ensures OrderKey(b[1..][i]) < OrderKey(b[1..][j])
    {
      assert b[1..][i] == b[i + 1] && b[1..][j] == b[j + 1];
    }
  }

  /** Filtering commutes with the order update, which changes neither `enabled` nor the
      audio. */
  lemma {:induction false} FilterWithOrders(s: seq<Item>, m: map<string, int>)
    ensures Filter(WithOrders(s, m), Displayed) == WithOrders(Filter(s, Displayed), m)
  {
    if |s| > 0 {
      FilterWithOrders(s[1..], m);
      assert WithOrders(s, m) == [WithOrder(m)(s[0])] + WithOrders(s[1..], m);
      assert WithOrders(s, m)[1..] == WithOrders(s[1..], m);
      if Displayed(s[0]) {
        assert WithOrders(Filter(s, Displayed), m) == [WithOrder(m)(s[0])] + WithOrders(Filter(s[1..], Displayed), m);
      }
    }
  }

  /** With distinct ids, giving each item its own position is renumbering. */
  lemma WithOwnPositions(s: seq<Item>)
    requires DistinctIds(s)
    ensures WithOrders(s, Positions(s)) == Renumber(s)
  {
    forall k | 0 <= k < |s|
      ensures WithOrders(s, Positions(s))[k] == Renumber(s)[k]
    {
      PositionsOfDistinct(s, k);
    }
  }

  /** The displayed items after giving the moved list its positions are a permutation of
      the renumbered moved list. */
  lemma DisplayedAfterMove(playlist: seq<Item>, moved: seq<Item>)
    requires DistinctIds(moved)
    requires multiset(moved) == multiset(Filter(playlist, Displayed))
    ensures multiset(Filter(WithOrders(playlist, Positions(moved)), Displayed)) == multiset(Renumber(moved))
  {
    var m := Positions(moved);
    FilterWithOrders(playlist, m);
    MapPermutation(Filter(playlist, Displayed), moved, WithOrder(m));
    WithOwnPositions(moved);
  }

  /** Giving a permutation of the displayed items their positions makes the editor show
      that permutation, renumbered. */
  lemma DisplayAfterMove(playlist: seq<Item>, moved: seq<Item>)
    requires DistinctIds(moved)
    requires multiset(moved) == multiset(Filter(playlist, Displayed))
    ensures DisplayList(WithOrders(playlist, Positions(moved))) == Renumber(moved)
  {
    DisplayedAfterMove(playlist, moved);
    SortedUnique(DisplayList(WithOrders(playlist, Positions(moved))), Renumber(moved));
  }

  /** With the indices applied to the displayed list and distinct ids among the displayed
      items, the editor afterwards shows exactly the dragged arrangement, numbered
      0, 1, 2, ... */
  lemma ReorderMovesDisplayed(playlist: seq<Item>, src: int, dst: int)
    requires DistinctIds(Filter(playlist, Displayed))
    requires 0 <= src < |DisplayList(playlist)| && 0 <= dst < |DisplayList(playlist)| && src != dst
    ensures Reorder(playlist, src, dst).Some?
    ensures DisplayList(Reorder(playlist, src, dst).value) == Renumber(Move(DisplayList(playlist), src, dst))
  {
    var d := DisplayList(playlist);
    var moved := Move(d, src, dst);
    assert Reorder(playlist, src, dst) == Some(WithOrders(playlist, Positions(moved)));
    DistinctIdsPermutation(Filter(playlist, Displayed), moved);
    DisplayAfterMove(playlist, moved);
  }

  /** Two displayed items, `a` with order 1 listed before `b` with order 0. */
  function ItemA(): Item {
    Item("a", "", "", "", "", true, Some(1), "a.mp3", 0)
  }

  function ItemB(): Item {
    Item("b", "", "", "", "", true, Some(0), "b.mp3", 0)
  }

  lemma SortTwo(x: Item, y: Item)
    requires OrderKey(y) < OrderKey(x)
    ensures SortByOrder([x, y]) == [y, x]
  {
    assert [x, y][..1] == [x];
    assert SortBy([x], OrderKey) == [x];
  }

  lemma DisplayTwo(x: Item, y: Item)
    requires Displayed(x) && Displayed(y) && OrderKey(y) < OrderKey(x)
    ensures DisplayList([x, y]) == [y, x]
  {
    assert [x, y][1..] == [y];
    assert Filter([x, y], Displayed) == [x, y];
    SortTwo(x, y);
  }

  /** Dragging the first of two displayed items below the second, with the indices
      taken in playlist order. */
  lemma AsWrittenTwo(x: Item, y: Item)
    requires Displayed(x) && Displayed(y) && x.id != y.id
    ensures ReorderAsWritten([x, y], 0, 1) == Some([x.(order := Some(1)), y.(order := Some(0))])
  {
    assert [x, y][1..] == [y];
    assert Filter([x, y], Displayed) == [x, y];
    MoveFirstOfTwo(x, y);
  }

  /** The move step on a two-item list that is also the whole playlist. */
  lemma MoveFirstOfTwo(x: Item, y: Item)
    requires x.id != y.id
    ensures ApplyMove([x, y], [x, y], 0, 1) == Some([x.(order := Some(1)), y.(order := Some(0))])
  {
    NewOrdersTwo(x, y);
    var r := ApplyMove([x, y], [x, y], 0, 1).value;
    assert ItemIds([x, y])[0] == x.id && ItemIds([x, y])[1] == y.id;
    assert r[0] == x.(order := Some(1));
    assert r[1] == y.(order := Some(0));
    assert r == [r[0], r[1]];
  }

  /** Dragging the first of two items below the second gives the second position 0 and
      the first position 1. */
  lemma NewOrdersTwo(x: Item, y: Item)
    requires x.id != y.id
    ensures x.id in NewOrders([x, y], 0, 1) && NewOrders([x, y], 0, 1)[x.id] == 1
    ensures y.id in NewOrders([x, y], 0, 1) && NewOrders([x, y], 0, 1)[y.id] == 0
  {
    MoveTwo(y, x);
    PositionsOfDistinct([y, x], 0);
    PositionsOfDistinct([y, x], 1);
  }

  lemma MoveTwo<T>(x: T, y: T)
    ensures Move([y, x], 0, 1) == [x, y]
  {
    var mv := Move([y, x], 0, 1);
    assert mv[1] == y;
    assert mv[..1] + mv[2..] == [x];
    assert mv[..1] == [mv[0]];
  }

  lemma RenumberTwo(x: Item, y: Item)
    ensures Renumber([x, y]) == [x.(order := Some(0)), y.(order := Some(1))]
  {
  }

  /** The provider as written moves the wrong item whenever two displayed items are
      listed against their `order`: with `x` before `y` in the playlist but `y` first on
      screen, dragging the first row below the second should show [x, y], yet the order
      values written show [y, x] again. */
  lemma AsWrittenMisordersTwo(x: Item, y: Item)
    requires Displayed(x) && Displayed(y) && x.id != y.id && OrderKey(y) < OrderKey(x)
    ensures DisplayList([x, y]) == [y, x]
    ensures ReorderAsWritten([x, y], 0, 1).Some?
    ensures DisplayList(ReorderAsWritten([x, y], 0, 1).value) == [y.(order := Some(0)), x.(order := Some(1))]
    ensures Renumber(Move(DisplayList([x, y]), 0, 1)) == [x.(order := Some(0)), y.(order := Some(1))]
  {
    DisplayTwo(x, y);
    AsWrittenTwo(x, y);
    var x1 := x.(order := Some(1));
    var y0 := y.(order := Some(0));
    assert Displayed(x1) && Displayed(y0);
    DisplayTwo(x1, y0);
    MoveTwo(x, y);
    RenumberTwo(x, y);
  }

  /** A concrete instance: `a` (order 1) listed before `b` (order 0). */
  lemma ReorderAsWrittenMisordersDisplay()
    ensures DisplayList([ItemA(), ItemB()]) == [ItemB(), ItemA()]
    ensures DisplayList(ReorderAsWritten([ItemA(), ItemB()], 0, 1).value)
            != Renumber(Move(DisplayList([ItemA(), ItemB()]), 0, 1))
  {
    AsWrittenMisordersTwo(ItemA(), ItemB());
    assert ItemB().(order := Some(0)).id != ItemA().(order := Some(0)).id;
  }
}
