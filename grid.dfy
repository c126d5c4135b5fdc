/** The selection state machine of the `InteractiveButtonGrid` screen: the set
    of selected tile indices, the two user actions that change it (tapping a
    tile, tapping "Clear Selection"), and the values the screen derives from
    it (the counter line, the clear button's enabled flag, each tile's look). */
module Grid {
  import Decimal
  import opened Buttons
  import Counter

  /** Every selected index names an existing tile. */
  ghost predicate InRange(s: set<int>) {
    forall i :: i in s ==> 0 <= i < N
  }

  /** The selection after tapping tile `i`: the symmetric difference of `s`
      and `{i}`. */
  function Toggled(s: set<int>, i: int): (r: set<int>)
    ensures i in r <==> i !in s
    ensures forall j :: j != i ==> (j in r <==> j in s)
  {
    (s - {i}) + ({i} - s)
  }

  /** Tapping the same tile twice in a row restores the selection. */
  lemma ToggledTwice(s: set<int>, i: int)
    ensures Toggled(Toggled(s, i), i) == s
  {
  }

  /** A tap on a tile keeps every selected index in range. */
  lemma ToggledInRange(s: set<int>, i: int)
    requires InRange(s) && 0 <= i < N
    ensures InRange(Toggled(s, i))
  {
  }

  /** A tap changes the count by exactly one, down if the tile was selected. */
  lemma ToggledCount(s: set<int>, i: int)
    ensures |Toggled(s, i)| == if i in s then |s| - 1 else |s| + 1
  {
  }

  /** A set of indices all below `n` has at most `n` elements. */
  lemma {:induction false} BoundedSize(s: set<int>, n: nat)
    requires forall i :: i in s ==> 0 <= i < n
    ensures |s| <= n
    decreases n
  {
    if n == 0 {
      assert forall i :: i in s <==> i in {};
    } else {
      var below := s - {n - 1};
      BoundedSize(below, n - 1);
      if n - 1 in s {
        assert s == below + {n - 1};
      } else {
        assert s == below;
      }
    }
  }

  lemma NoneSelectedIsEmpty(s: set<int>)
    ensures s == {} <==> forall i :: i !in s
  {
    if forall i :: i !in s {
      assert forall i :: i in s <==> i in {};
    }
  }

  /** The state of one `InteractiveButtonGrid` screen. */
  class GridState {
    /** `selectedButtons`: the indices of the selected tiles. */
    var selected: set<int>

    ghost predicate Valid()
      reads this
    {
      InRange(selected)
    }

    /** The screen starts with nothing selected. */
    constructor ()
      ensures Valid()
      ensures selected == {}
    {
      selected := {};
    }

    /** The click handler of tile `i`: deselect it if selected, else select it.
        Only tiles `0 .. N-1` exist, so only they can be tapped. */
    method Toggle(i: int)
      requires Valid()
      requires 0 <= i < N
      modifies this
      ensures Valid()
      ensures selected == Toggled(old(selected), i)
      ensures IsSelected(i) <==> !old(IsSelected(i))
      ensures forall j :: j != i ==> (IsSelected(j) <==> old(IsSelected(j)))
      ensures Count() == if old(IsSelected(i)) then old(Count()) - 1 else old(Count()) + 1
      ensures forall j :: 0 <= j < N && j != i ==> Tiles()[j] == old(Tiles())[j]
    {
      selected := if i in selected then selected - {i} else selected + {i};
      ToggledInRange(old(selected), i);
      ToggledCount(old(selected), i);
    }

    /** The click handler of "Clear Selection". */
    method Clear()
      modifies this
      ensures Valid()
      ensures selected == {}
      ensures Count() == 0 && !ClearEnabled()
      ensures CounterLine() == Counter.CounterText(0, N)
    {
      selected := {};
    }

    /** `selectedButtons.contains(i)`: whether tile `i` is selected; only an
        existing tile can be. */
    function IsSelected(i: int): (b: bool)
      reads this
      requires Valid()
      ensures b ==> 0 <= i < N
    {
      i in selected
    }

    /** `selectedButtons.size`, which never exceeds the number of tiles. */
    function Count(): (c: nat)
      reads this
      requires Valid()
      ensures c <= N
      ensures c == 0 <==> selected == {}
    {
      BoundedSize(selected, N);
      |selected|
    }

    /** The enabled flag of "Clear Selection": `selectedButtons.isNotEmpty()`. */
    function ClearEnabled(): (enabled: bool)
      reads this
      requires Valid()
      ensures enabled <==> Count() > 0
      ensures !enabled <==> forall i :: !IsSelected(i)
    {
      NoneSelectedIsEmpty(selected);
      assert forall i :: IsSelected(i) <==> i in selected;
      selected != {}
    }

    /** The counter line; it reads back as the count and the total `N`. */
    function CounterLine(): (t: string)
      reads this
      requires Valid()
      ensures Counter.Read(t) == Counter.Some((Count(), N))
      ensures Count() <= N
    {
      Counter.CounterText(|selected|, |Items|)
    }

    /** The tiles, in the order `buttonData.forEachIndexed` draws them: tile
        `i` shows the ordinal `i + 1` and takes the selected look exactly when
        `i` is selected. */
    function Tiles(): (ts: seq<Tile>)
      reads this
      requires Valid()
      ensures |ts| == N
      ensures forall i :: 0 <= i < N ==> ts[i].number == Decimal.NatToString(i + 1)
      ensures forall i :: 0 <= i < N ==> (ts[i].style == SelectedStyle <==> IsSelected(i))
      ensures forall i :: 0 <= i < N && !IsSelected(i) ==> ts[i].style.background == Own(Items[i].color)
    {
      ItemsLabelled();
      seq(|Items|, i requires 0 <= i < |Items| reads this => TileFor(Items[i], i in selected))
    }
  }

  /** A session on a fresh screen: tap tile 0, tap tile 5, tap tile 0 again,
      then "Clear Selection"; after each action, the counter line and whether
      "Clear Selection" is enabled. */
  method Walkthrough() returns (lines: seq<string>, clearable: seq<bool>)
    ensures lines == [Counter.CounterText(1, N), Counter.CounterText(2, N),
                      Counter.CounterText(1, N), Counter.CounterText(0, N)]
    ensures clearable == [true, true, true, false]
  {
    var g := new GridState();
    g.Toggle(0);
    assert g.selected == {0};
    var l1, c1 := g.CounterLine(), g.ClearEnabled();
    g.Toggle(5);
    assert g.selected == {0, 5};
    var l2, c2 := g.CounterLine(), g.ClearEnabled();
    g.Toggle(0);
    assert g.selected == {5};
    var l3, c3 := g.CounterLine(), g.ClearEnabled();
    g.Clear();
    var l4, c4 := g.CounterLine(), g.ClearEnabled();
    lines, clearable := [l1, l2, l3, l4], [c1, c2, c3, c4];
  }
}
