/** The per-form expand/collapse state and the drag-and-drop guard shared by
    the work and portfolio list editors. The state is keyed by list index,
    as a JavaScript `Record<number, boolean>`: a missing key reads as
    collapsed. */
module Panels {
  import opened CvTypes
  import opened ListUtils

  /** The initial state: `data.reduce((acc, _, index) => ({ ...acc,
      [index]: v }), {})`, one entry per index of a list of length `n`. */
  function InitPanels(n: nat, v: bool): (m: map<int, bool>)
    ensures forall i :: i in m <==> 0 <= i < n
    ensures forall i :: i in m ==> m[i] == v
  {
    if n == 0 then map[] else InitPanels(n - 1, v)[n - 1 := v]
  }

  /** Whether panel `i` is shown: `expandedPanels[index] && ...`, where a
      missing key is `undefined` and hides the panel. */
  predicate IsExpanded(m: map<int, bool>, i: int) {
    i in m && m[i]
  }

  /** `togglePanel`: entry `i` is set to the negation of what it reads as;
      every other entry is left as it was. */
  function TogglePanel(m: map<int, bool>, i: int): (r: map<int, bool>)
    ensures i in r && IsExpanded(r, i) == !IsExpanded(m, i)
    ensures forall j :: j != i ==> (j in r <==> j in m)
    ensures forall j :: j != i && j in m ==> r[j] == m[j]
  {
    m[i := !IsExpanded(m, i)]
  }

  /** Toggling a panel twice shows the same panels as before. */
  lemma ToggleTwice(m: map<int, bool>, i: int)
    ensures forall j :: IsExpanded(TogglePanel(TogglePanel(m, i), i), j) == IsExpanded(m, j)
  {
    var once := TogglePanel(m, i);
    var twice := TogglePanel(once, i);
    forall j
      ensures IsExpanded(twice, j) == IsExpanded(m, j)
    {
      if j != i {
        assert j in twice <==> j in once;
        assert j in once <==> j in m;
      }
    }
  }

  /** In the initial state of a list of length `n`, exactly the panels of
      the list's indices read as `v` (all collapsed when `v` is false). */
  lemma InitPanelsShows(n: nat, v: bool, i: int)
    ensures IsExpanded(InitPanels(n, v), i) <==> v && 0 <= i < n
  {
  }

  /** `handleDragEnd`: the list is reordered only when the drop landed on an
      item (`over` present); the ids of the sortable items are their
      indices. `None` means no update is made. */
  function DragEnd<T>(data: seq<T>, active: nat, over: Option<nat>): (r: Option<seq<T>>)
    requires active < |data|
    requires over.Some? ==> over.value < |data|
    ensures r.None? <==> over.None?
    ensures r.Some? ==> |r.value| == |data| && r.value[over.value] == data[active]
    ensures r.Some? ==> multiset(r.value) == multiset(data)
  {
    match over
    case None => None
    case Some(to) =>
      MovedIsPermutation(data, active, to);
      Some(Moved(data, active, to))
  }
}
