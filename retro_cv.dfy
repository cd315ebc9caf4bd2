/** The retro theme's menu: five entries, a highlighted one that the arrow
    keys move with wrap-around, Enter to open the highlighted entry's screen
    and Escape to go back to the menu. */
module RetroCv {

  import opened CvTypes

  /** The screen ids of the menu entries, in menu order. */
  const MenuIds: seq<string> := ["info", "exp", "edu", "skills", "langs"]

  /** The entries' titles, in the same order. */
  const MenuLabels: seq<string> := ["INFORMACIÓN PERSONAL", "EXPERIENCIA LABORAL", "EDUCACIÓN", "HABILIDADES", "IDIOMAS"]

  /** The screen that shows the menu itself. */
  const MenuScreen: string := "menu"

  /** The label of the first entry at or after `k` whose id is `screen`. */
  function FindLabel(screen: string, k: nat): (r: Option<string>)
    requires k <= |MenuIds|
    ensures r.Some? <==> screen in MenuIds[k..]
    decreases |MenuIds| - k
  {
    if k == |MenuIds| then None
    else if MenuIds[k] == screen then Some(MenuLabels[k])
    else FindLabel(screen, k + 1)
  }

  /** The heading of a screen, `menuOptions.find(...)?.label`: the label of
      the entry with that id, or nothing (for the menu itself). */
  function ScreenTitle(screen: string): (r: Option<string>)
    ensures r.Some? <==> screen in MenuIds
  {
    FindLabel(screen, 0)
  }

  /** Opening an entry shows that entry's own label as heading. */
  lemma ScreenTitleOfEntry(i: int)
    requires 0 <= i < |MenuIds|
    ensures ScreenTitle(MenuIds[i]) == Some(MenuLabels[i])
  {
    if i == 0 {
    } else if i == 1 {
      assert MenuIds[0] != MenuIds[1];
    } else if i == 2 {
      assert MenuIds[0] != MenuIds[2] && MenuIds[1] != MenuIds[2];
    } else if i == 3 {
      assert MenuIds[0] != MenuIds[3] && MenuIds[1] != MenuIds[3] && MenuIds[2] != MenuIds[3];
    } else {
      assert MenuIds[0] != MenuIds[4] && MenuIds[1] != MenuIds[4] && MenuIds[2] != MenuIds[4] && MenuIds[3] != MenuIds[4];
    }
  }

  /** ArrowUp: the entry above, or the last entry from the first. */
  function SelectUp(i: int): (r: int)
    ensures 0 <= i < |MenuIds| ==> 0 <= r < |MenuIds|
    ensures i == 0 ==> r == |MenuIds| - 1
    ensures 0 < i ==> r == i - 1
  {
    if i > 0 then i - 1 else |MenuIds| - 1
  }

  /** ArrowDown: the entry below, or the first entry from the last. */
  function SelectDown(i: int): (r: int)
    ensures 0 <= i < |MenuIds| ==> 0 <= r < |MenuIds|
    ensures i == |MenuIds| - 1 ==> r == 0
    ensures i < |MenuIds| - 1 ==> r == i + 1
  {
    if i < |MenuIds| - 1 then i + 1 else 0
  }

  /** Up then down, or down then up, comes back to the same entry. */
  lemma UpDownInverse(i: int)
    requires 0 <= i < |MenuIds|
    ensures SelectDown(SelectUp(i)) == i
    ensures SelectUp(SelectDown(i)) == i
  {
  }

  /** `n` presses of ArrowDown. */
  function DownTimes(i: int, n: nat): (r: int)
    ensures 0 <= i < |MenuIds| ==> 0 <= r < |MenuIds|
  {
    if n == 0 then i else SelectDown(DownTimes(i, n - 1))
  }

  /** ArrowDown moves one step round the cycle of the menu. */
  lemma {:induction false} DownTimesIsRotation(i: int, n: nat)
    requires 0 <= i < |MenuIds|
    ensures DownTimes(i, n) == (i + n) % |MenuIds|
  {
    if n > 0 {
      DownTimesIsRotation(i, n - 1);
    }
  }

  /** As many ArrowDown presses as there are entries come back to the start. */
  lemma FullCycle(i: int)
    requires 0 <= i < |MenuIds|
    ensures DownTimes(i, |MenuIds|) == i
  {
    DownTimesIsRotation(i, |MenuIds|);
  }

  /** The keyboard-driven menu state. */
  class RetroMenu {
    var selected: int
    var screen: string

    /** The highlighted entry is a menu entry and the screen is the menu or
        one of the entries' screens. */
    predicate Valid()
      reads this
    {
      0 <= selected < |MenuIds| && (screen == MenuScreen || screen in MenuIds)
    }

    /** The first entry highlighted, on the menu screen. */
    constructor()
      ensures Valid() && selected == 0 && screen == MenuScreen
    {
      selected := 0;
      screen := MenuScreen;
    }

    method ArrowUp()
      requires Valid()
      modifies this
      ensures Valid() && selected == SelectUp(old(selected)) && screen == old(screen)
    {
      selected := if selected > 0 then selected - 1 else |MenuIds| - 1;
    }

    method ArrowDown()
      requires Valid()
      modifies this
      ensures Valid() && selected == SelectDown(old(selected)) && screen == old(screen)
    {
      selected := if selected < |MenuIds| - 1 then selected + 1 else 0;
    }

    /** Opens the highlighted entry's screen. */
    method Enter()
      requires Valid()
      modifies this
      ensures Valid() && screen == MenuIds[selected] && selected == old(selected)
    {
      screen := MenuIds[selected];
    }

    /** Goes back to the menu. */
    method Escape()
      requires Valid()
      modifies this
      ensures Valid() && screen == MenuScreen && selected == old(selected)
    {
      screen := MenuScreen;
    }

    /** `handleKeyDown`: the four keys above; any other key changes
        nothing. */
    method HandleKey(key: string)
      requires Valid()
      modifies this
      ensures Valid()
      ensures key == "ArrowUp" ==> selected == SelectUp(old(selected)) && screen == old(screen)
      ensures key == "ArrowDown" ==> selected == SelectDown(old(selected)) && screen == old(screen)
      ensures key == "Enter" ==> screen == MenuIds[old(selected)] && selected == old(selected)
      ensures key == "Escape" ==> screen == MenuScreen && selected == old(selected)
      ensures key !in ["ArrowUp", "ArrowDown", "Enter", "Escape"] ==> selected == old(selected) && screen == old(screen)
    {
      if key == "ArrowUp" {
        ArrowUp();
      } else if key == "ArrowDown" {
        ArrowDown();
      } else if key == "Enter" {
        Enter();
      } else if key == "Escape" {
        Escape();
      }
    }
  }
}
