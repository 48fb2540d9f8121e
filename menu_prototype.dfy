/**
 * menu.py, the earlier stand-alone version of the configuration menu: a
 * main menu (Start, Set Drop Off, test2, Stop), the list of three zones
 * and the list of four colours. `Next` is one pass of its `menuLoop`;
 * the class `Robot` runs it on its fields. Drawing is left out; `DrawSafe`
 * states the lookups the drawing code makes.
 */
module MenuPrototype {

  import opened Wrappers
  import opened Parameters
  import opened MenuCommon

  const MAIN_MENU := 0
  const SET_DROPOFF := 1
  const SET_COLOR := 2

  /** Lengths of `main_menu`, `set_dropoff` and `set_color`. */
  const ITEM_COUNTS: seq<int> := [4, 3, 4]

  /** The main-menu item that leaves the loop: the last one. */
  const STOP_ITEM := ITEM_COUNTS[MAIN_MENU] - 1

  const ZONE_COUNT := 3

  /** `menu_title`: titles of the two menus without a title of their own. */
  const MENU_TITLES: seq<string> := ["Main Menu", "Set Dropoff Color"]

  /** `color_names`: the names the zone list shows. */
  const COLOR_NAMES: map<Color, string> := map[Blue := "Blue", Red := "Red", Green := "Green", Yellow := "Yellow"]

  /**
   * `menu_selection`, `item_selection`, `menu_title_txt`, the local
   * `selected_zone` (None until first assigned) and `dropOffColor`.
   */
  datatype MenuState = MenuState(
    menu: int,
    item: int,
    title: string,
    selectedZone: Option<int>,
    dropOffColor: seq<Color>)

  datatype Action = Continue | Exit

  predicate NamedColors(colors: seq<Color>) {
    forall i :: 0 <= i < |colors| ==> colors[i] in COLOR_NAMES
  }

  /**
   * The loop invariant: the highlighted item exists, a title of its own is
   * set exactly in the colour list (for the selected zone), and every zone
   * holds a colour `color_names` can name.
   */
  predicate Inv(s: MenuState) {
    && 0 <= s.menu < |ITEM_COUNTS|
    && 0 <= s.item < ITEM_COUNTS[s.menu]
    && (s.title != "" <==> s.menu == SET_COLOR)
    && (s.menu == SET_COLOR ==>
          && s.selectedZone.Some?
          && 0 <= s.selectedZone.value < ZONE_COUNT
          && s.title == ZoneTitle(s.selectedZone.value))
    && |s.dropOffColor| == ZONE_COUNT
    && NamedColors(s.dropOffColor)
  }

  /**
   * What `menuDraw` looks up: the item list of the current menu, the menu
   * title when no title text is set, and the name of each zone's colour
   * in the zone list.
   */
  predicate DrawSafe(s: MenuState) {
    && 0 <= s.menu < |ITEM_COUNTS|
    && (s.title == "" ==> s.menu < |MENU_TITLES|)
    && (s.menu == SET_DROPOFF ==>
          forall index :: 0 <= index < ITEM_COUNTS[SET_DROPOFF] ==>
            index < |s.dropOffColor| && s.dropOffColor[index] in COLOR_NAMES)
  }

  /** Every colour the colour list assigns has a name. */
  lemma ChoicesAreNamed()
    ensures forall i :: 0 <= i < |COLOR_INDEX| ==> COLOR_INDEX[i] in COLOR_NAMES
  {
  }

  /** In every state the loop can be in, drawing finds everything it looks up. */
  lemma InvMakesDrawSafe(s: MenuState)
    requires Inv(s)
    ensures DrawSafe(s)
  {
  }

  /** The state on entry to `menuLoop`, given the robot's colour list. */
  function Enter(dropOffColor: seq<Color>): (r: MenuState)
    requires |dropOffColor| == ZONE_COUNT && NamedColors(dropOffColor)
    ensures Inv(r) && r.menu == MAIN_MENU && r.item == 0 && r.title == ""
    ensures r.selectedZone.None? && r.dropOffColor == dropOffColor
  {
    MenuState(MAIN_MENU, 0, "", None, dropOffColor)
  }

  /** Down: the next item, wrapping from the last to the first. */
  function OnDown(s: MenuState): (r: MenuState)
    requires Inv(s)
    ensures Inv(r) && r == s.(item := r.item)
    ensures s.item == ITEM_COUNTS[s.menu] - 1 ==> r.item == 0
    ensures s.item < ITEM_COUNTS[s.menu] - 1 ==> r.item == s.item + 1
  {
    s.(item := NextItem(s.item, ITEM_COUNTS[s.menu]))
  }

  /** Up: the previous item, wrapping from the first to the last. */
  function OnUp(s: MenuState): (r: MenuState)
    requires Inv(s)
    ensures Inv(r) && r == s.(item := r.item)
    ensures s.item == 0 ==> r.item == ITEM_COUNTS[s.menu] - 1
    ensures s.item > 0 ==> r.item == s.item - 1
  {
    s.(item := PrevItem(s.item, ITEM_COUNTS[s.menu]))
  }

  /** Center: select the highlighted item. */
  function OnCenter(s: MenuState): (r: (MenuState, Action))
    requires Inv(s)
    ensures Inv(r.0)
    // the main menu: item 1 opens the zone list, the last item leaves, the others do nothing
    ensures r.1 == Exit <==> s.menu == MAIN_MENU && s.item == STOP_ITEM
    ensures s.menu == MAIN_MENU && s.item == 1 ==> r.0 == s.(menu := SET_DROPOFF, item := 0)
    ensures s.menu == MAIN_MENU && s.item != 1 ==> r.0 == s
    // a zone opens the colour list for it, titled with its number
    ensures s.menu == SET_DROPOFF ==>
              r.0 == s.(menu := SET_COLOR, item := 0, selectedZone := Some(s.item), title := ZoneTitle(s.item))
    // a colour is written into the selected zone only; the title is cleared and the zone highlighted
    ensures s.menu == SET_COLOR ==>
              var z := s.selectedZone.value;
              && r.0.dropOffColor[z] == COLOR_INDEX[s.item]
              && (forall i :: 0 <= i < ZONE_COUNT && i != z ==> r.0.dropOffColor[i] == s.dropOffColor[i])
              && r.0 == s.(menu := SET_DROPOFF, item := z, title := "", dropOffColor := r.0.dropOffColor)
  {
    if s.menu == MAIN_MENU then
      if s.item == 1 then (s.(menu := SET_DROPOFF, item := 0), Continue)
      else if s.item == STOP_ITEM then (s, Exit)
      else (s, Continue)
    else if s.menu == SET_DROPOFF then
      (s.(selectedZone := Some(s.item), title := ZoneTitle(s.item), menu := SET_COLOR, item := 0), Continue)
    else
      var z := s.selectedZone.value;
      (s.(dropOffColor := s.dropOffColor[z := COLOR_INDEX[s.item]], menu := SET_DROPOFF, title := "", item := z),
       Continue)
  }

  /** Left: up exactly one level (colour list to zone list to main menu), first item highlighted. */
  function OnLeft(s: MenuState): (r: MenuState)
    requires Inv(s)
    ensures Inv(r)
    ensures r.menu == (if s.menu == MAIN_MENU then MAIN_MENU else s.menu - 1)
    ensures r.item == 0 && r.title == ""
    ensures r == s.(menu := r.menu, item := 0, title := "")
  {
    match s.menu
    case 2 => s.(menu := SET_DROPOFF, title := "", item := 0)
    case 1 => s.(menu := MAIN_MENU, title := "", item := 0)
    case _ => s.(item := 0)
  }

  /** One pass of the loop: Down wins over Up, Up over Center, Center over Left. */
  function Next(s: MenuState, pressed: set<Button>): (r: (MenuState, Action))
    requires Inv(s)
    ensures Inv(r.0) && DrawSafe(r.0)
    ensures r.1 == Exit ==> Center in pressed && Down !in pressed && Up !in pressed && r.0 == s
    ensures Down !in pressed && Up !in pressed && Center !in pressed && Left !in pressed ==> r == (s, Continue)
  {
    if Down in pressed then (OnDown(s), Continue)
    else if Up in pressed then (OnUp(s), Continue)
    else if Center in pressed then OnCenter(s)
    else if Left in pressed then (OnLeft(s), Continue)
    else (s, Continue)
  }

  /** The state after the given passes, or the one in which the loop was left. */
  function Run(s: MenuState, presses: seq<set<Button>>): (r: MenuState)
    requires Inv(s)
    ensures Inv(r) && DrawSafe(r)
    decreases |presses|
  {
    if presses == [] then s
    else
      var (t, action) := Next(s, presses[0]);
      if action == Exit then t else Run(t, presses[1..])
  }

  /** Up undoes Down and Down undoes Up. */
  lemma UpUndoesDown(s: MenuState)
    requires Inv(s)
    ensures OnUp(OnDown(s)) == s && OnDown(OnUp(s)) == s
  {
  }

  /** `k` passes with Down held move only the item, `k` places along the list. */
  lemma {:induction false} DownPassesMoveItem(s: MenuState, k: nat)
    requires Inv(s)
    ensures Run(s, DownPresses(k)) == s.(item := NextTimes(s.item, ITEM_COUNTS[s.menu], k))
    decreases k
  {
    if k > 0 {
      assert DownPresses(k)[1..] == DownPresses(k - 1);
      DownPassesMoveItem(OnDown(s), k - 1);
      NextTimesAdd(s.item, ITEM_COUNTS[s.menu], 1, k - 1);
    }
  }

  /** As many Down passes as the menu has items come back to the same state. */
  lemma DownPassesCycle(s: MenuState)
    requires Inv(s)
    ensures Run(s, DownPresses(ITEM_COUNTS[s.menu])) == s
  {
    DownPassesMoveItem(s, ITEM_COUNTS[s.menu]);
    NextTimesCycles(s.item, ITEM_COUNTS[s.menu]);
  }

  /** The robot of menu.py; only the menu state and the zone colours are modelled. */
  class Robot {
    var menuSelection: int
    var itemSelection: int
    var menuTitleTxt: string
    var selectedZone: Option<int>
    var dropOffColor: seq<Color>

    function Menu(): MenuState
      reads this
    {
      MenuState(menuSelection, itemSelection, menuTitleTxt, selectedZone, dropOffColor)
    }

    ghost predicate Valid()
      reads this
    {
      Inv(Menu())
    }

    /** `Robot()`: the zones start out blue, red and green. */
    constructor ()
      ensures Valid()
      ensures dropOffColor == [Blue, Red, Green] && Menu() == Enter([Blue, Red, Green])
    {
      dropOffColor := [Blue, Red, Green];
      menuSelection, itemSelection, menuTitleTxt, selectedZone := MAIN_MENU, 0, "", None;
    }

    /** Entry to `menuLoop`: the main menu, first item, no title text. */
    method EnterMenu()
      requires Valid()
      modifies this
      ensures Valid()
      ensures Menu() == Enter(old(dropOffColor))
    {
      menuSelection := MAIN_MENU;
      itemSelection := 0;
      menuTitleTxt := "";
      selectedZone := None;
    }

    /** One pass of `menuLoop` with `pressed` held down. */
    method Step(pressed: set<Button>) returns (action: Action)
      requires Valid()
      modifies this
      ensures Valid()
      ensures (Menu(), action) == Next(old(Menu()), pressed)
    {
      action := Continue;
      if Down in pressed {
        itemSelection := (itemSelection + 1) % ITEM_COUNTS[menuSelection];
      } else if Up in pressed {
        itemSelection := (itemSelection - 1) % ITEM_COUNTS[menuSelection];
      } else if Center in pressed {
        if menuSelection == MAIN_MENU {
          if itemSelection == 1 {
            menuSelection := SET_DROPOFF;
            itemSelection := 0;
          } else if itemSelection == STOP_ITEM {
            action := Exit;
          }
        } else if menuSelection == SET_DROPOFF {
          selectedZone := Some(itemSelection);
          menuTitleTxt := ZoneTitle(itemSelection);
          menuSelection := SET_COLOR;
          itemSelection := 0;
        } else if menuSelection == SET_COLOR {
          var zone := selectedZone.value;
          dropOffColor := dropOffColor[zone := COLOR_INDEX[itemSelection]];
          menuSelection := SET_DROPOFF;
          menuTitleTxt := "";
          itemSelection := zone;
        }
      } else if Left in pressed {
        // two separate tests, as in the program: the second sees the first's result
        if menuSelection == SET_DROPOFF {
          menuSelection := MAIN_MENU;
          menuTitleTxt := "";
        }
        if menuSelection == SET_COLOR {
          menuSelection := SET_DROPOFF;
          menuTitleTxt := "";
        }
        itemSelection := 0;
      }
    }
  }
}
