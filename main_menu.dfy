/**
 * The transition logic of `Robot.menuLoop` in main.py: one pass of its
 * `while(True)` loop as a function of the menu state and the set of pressed
 * buttons. Drawing is left out; `Inv` collects what the drawing code's list
 * lookups need. The class `SortingRobot.Robot` runs these transitions on
 * its fields.
 */
module MainMenu {

  import opened Wrappers
  import opened Parameters
  import opened MenuCommon
  import ColorNames

  /** The menus, numbered as `menu_selection` numbers them. */
  const MAIN_MENU := 0
  const SET_DROPOFF := 1
  const SET_COLOR := 2
  const SET_TIME := 3
  const GET_COLOR := 4

  /**
   * Lengths of the item lists `menuDraw` builds: main menu (Start, Set Drop
   * Off, Set Time, Get Color, Stop), the three zones, the four colours, the
   * single time item, and the four places to read a colour at.
   */
  const ITEM_COUNTS: seq<int> := [5, 3, 4, 1, 4]

  /** `menu_title`: the fixed titles; the colour list shows `menu_title_txt` instead. */
  const MENU_TITLES: seq<string> := ["Main Menu", "Set Dropoff Color", "", "Set Time", "Get Color At"]

  /** The main-menu item that stops the program: the last one. */
  const STOP_ITEM := ITEM_COUNTS[MAIN_MENU] - 1

  /** Number of drop-off zones, the entries of `dropOffColor`. */
  const ZONE_COUNT := 3

  /** Step by which Up and Down change `wait_time` (ms) in time-edit mode. */
  const TIME_STEP := 1000

  /**
   * The loop's state: `menu_selection`, `item_selection`,
   * `time_check_selection`, `wait_time`, the local `selected_zone` (None
   * until first assigned), `menu_title_txt` and the `dropOffColor` list.
   */
  datatype MenuState = MenuState(
    menu: int,
    item: int,
    timeEdit: bool,
    waitTime: int,
    selectedZone: Option<int>,
    title: string,
    dropOffColor: seq<Color>)

  /** What the loop does after a pass besides updating the state. */
  datatype Action =
    | Stay            // go round the loop again
    | StartSorting    // `return True`
    | StopProgram     // `return False`
    | Probe(zoneItem: int)  // Center in "Get Color At": `getSizeColorAt(item_selection)`

  /** Every zone holds one of the colours the colour list offers. */
  predicate AssignableColors(colors: seq<Color>) {
    forall i :: 0 <= i < |colors| ==> colors[i] in COLOR_INDEX
  }

  /**
   * The loop invariant: the highlighted item exists in the visible list,
   * time-edit mode only happens in the time menu, the wait is never
   * negative, there is one colour per zone, and the colour list is only open
   * once a zone has been selected (and its title written).
   */
  predicate Inv(s: MenuState) {
    && 0 <= s.menu < |ITEM_COUNTS|
    && 0 <= s.item < ITEM_COUNTS[s.menu]
    && (s.timeEdit ==> s.menu == SET_TIME)
    && s.waitTime >= 0
    && |s.dropOffColor| == ZONE_COUNT
    && AssignableColors(s.dropOffColor)
    && (s.menu == SET_COLOR ==>
          && s.selectedZone.Some?
          && 0 <= s.selectedZone.value < ZONE_COUNT
          && s.title == ZoneTitle(s.selectedZone.value))
  }

  /**
   * What `menuDraw` and the result screen look up: the title and item list
   * of the current menu, the title text where the fixed title is empty,
   * and a printable name (`formatColor` of a colour is a string) for the
   * colour of each zone in the zone list.
   */
  predicate DrawSafe(s: MenuState) {
    && 0 <= s.menu < |MENU_TITLES| && s.menu < |ITEM_COUNTS|
    && (MENU_TITLES[s.menu] == "" ==> s.title != "")
    && 0 <= s.item < ITEM_COUNTS[s.menu]
    && (s.menu == SET_DROPOFF ==>
          forall index :: 0 <= index < ITEM_COUNTS[SET_DROPOFF] ==>
            index < |s.dropOffColor| && ColorNames.FormatColor(ColorNames.PyColor(s.dropOffColor[index])).PyStr?)
  }

  /** In every state the loop can be in, drawing finds everything it looks up. */
  lemma InvMakesDrawSafe(s: MenuState)
    requires Inv(s)
    ensures DrawSafe(s)
  {
  }

  /** The state on entry to `menuLoop`: main menu, first item, not editing the time. */
  function Enter(s: MenuState): (r: MenuState)
    requires s.waitTime >= 0 && |s.dropOffColor| == ZONE_COUNT && AssignableColors(s.dropOffColor)
    ensures Inv(r)
    ensures r.menu == MAIN_MENU && r.item == 0 && !r.timeEdit && r.selectedZone.None?
    ensures r.waitTime == s.waitTime && r.dropOffColor == s.dropOffColor && r.title == s.title
  {
    s.(menu := MAIN_MENU, item := 0, timeEdit := false, selectedZone := None)
  }

  /**
   * Down: outside time-edit mode the next item, wrapping from the last to
   * the first; in time-edit mode 1000 ms less wait, but only from 1000 ms up.
   */
  function OnDown(s: MenuState): (r: MenuState)
    requires Inv(s)
    ensures Inv(r)
    ensures !s.timeEdit ==> r == s.(item := r.item)
    ensures !s.timeEdit && s.item == ITEM_COUNTS[s.menu] - 1 ==> r.item == 0
    ensures !s.timeEdit && s.item < ITEM_COUNTS[s.menu] - 1 ==> r.item == s.item + 1
    ensures s.timeEdit ==> r == s.(waitTime := r.waitTime)
    ensures s.timeEdit && s.waitTime >= TIME_STEP ==> r.waitTime == s.waitTime - TIME_STEP
    ensures s.timeEdit && s.waitTime < TIME_STEP ==> r.waitTime == s.waitTime
  {
    if !s.timeEdit then s.(item := NextItem(s.item, ITEM_COUNTS[s.menu]))
    else s.(waitTime := s.waitTime - if s.waitTime > 999 then TIME_STEP else 0)
  }

  /**
   * Up: outside time-edit mode the previous item, wrapping from the first
   * to the last; in time-edit mode 1000 ms more wait.
   */
  function OnUp(s: MenuState): (r: MenuState)
    requires Inv(s)
    ensures Inv(r)
    ensures !s.timeEdit ==> r == s.(item := r.item)
    ensures !s.timeEdit && s.item == 0 ==> r.item == ITEM_COUNTS[s.menu] - 1
    ensures !s.timeEdit && s.item > 0 ==> r.item == s.item - 1
    ensures s.timeEdit ==> r == s.(waitTime := s.waitTime + TIME_STEP)
  {
    if !s.timeEdit then s.(item := PrevItem(s.item, ITEM_COUNTS[s.menu]))
    else s.(waitTime := s.waitTime + TIME_STEP)
  }

  /** Center: select the highlighted item of the current menu. */
  function OnCenter(s: MenuState): (r: (MenuState, Action))
    requires Inv(s)
    ensures Inv(r.0)
    // the loop ends exactly on Start and on Stop in the main menu, leaving the state as it was
    ensures r.1 == StartSorting <==> s.menu == MAIN_MENU && s.item == 0
    ensures r.1 == StopProgram <==> s.menu == MAIN_MENU && s.item == STOP_ITEM
    ensures r.1.StartSorting? || r.1.StopProgram? ==> r.0 == s
    // the main menu's middle items open their menus at the first item
    ensures s.menu == MAIN_MENU && 0 < s.item < STOP_ITEM ==>
              r.0 == s.(menu := [SET_DROPOFF, SET_TIME, GET_COLOR][s.item - 1], item := 0)
    // a zone of the drop-off list opens the colour list for that zone
    ensures s.menu == SET_DROPOFF ==>
              r.0 == s.(menu := SET_COLOR, item := 0, selectedZone := Some(s.item), title := ZoneTitle(s.item))
    // a colour is written into the selected zone only, and the zone is highlighted again
    ensures s.menu == SET_COLOR ==>
              var z := s.selectedZone.value;
              && r.0.dropOffColor[z] == COLOR_INDEX[s.item]
              && (forall i :: 0 <= i < ZONE_COUNT && i != z ==> r.0.dropOffColor[i] == s.dropOffColor[i])
              && r.0 == s.(menu := SET_DROPOFF, item := z, dropOffColor := r.0.dropOffColor)
    // the time item toggles time-edit mode
    ensures s.menu == SET_TIME ==> r.0 == s.(timeEdit := !s.timeEdit)
    // "Get Color At" reads the colour at the highlighted place and stays put
    ensures r.1.Probe? <==> s.menu == GET_COLOR
    ensures s.menu == GET_COLOR ==> r == (s, Probe(s.item))
  {
    if s.menu == MAIN_MENU then
      if s.item == 0 then (s, StartSorting)
      else if s.item == 1 then (s.(menu := SET_DROPOFF, item := 0), Stay)
      else if s.item == 2 then (s.(menu := SET_TIME, item := 0), Stay)
      else if s.item == 3 then (s.(menu := GET_COLOR, item := 0), Stay)
      else if s.item == STOP_ITEM then (s, StopProgram)
      else (s, Stay)
    else if s.menu == SET_DROPOFF then
      (s.(selectedZone := Some(s.item), title := ZoneTitle(s.item), menu := SET_COLOR, item := 0), Stay)
    else if s.menu == SET_COLOR then
      var z := s.selectedZone.value;
      (s.(dropOffColor := s.dropOffColor[z := COLOR_INDEX[s.item]], menu := SET_DROPOFF, item := z), Stay)
    else if s.menu == SET_TIME then
      (if s.item == 0 then s.(timeEdit := !s.timeEdit) else s, Stay)
    else
      (s, Probe(s.item))
  }

  /**
   * Left: back out one level (to the main menu from the drop-off list, the
   * time menu and "Get Color At"; to the drop-off list from the colour
   * list), except that in time-edit mode it only leaves time-edit mode.
   * The first item is highlighted afterwards.
   */
  function OnLeft(s: MenuState): (r: MenuState)
    requires Inv(s)
    ensures Inv(r)
    ensures r.item == 0 && !r.timeEdit
    ensures r == s.(menu := r.menu, item := 0, timeEdit := false)
    ensures s.menu == SET_COLOR ==> r.menu == SET_DROPOFF
    ensures s.menu == SET_TIME && s.timeEdit ==> r.menu == SET_TIME
    ensures s.menu != SET_COLOR && !(s.menu == SET_TIME && s.timeEdit) ==> r.menu == MAIN_MENU
  {
    var menu :=
      if s.menu == SET_DROPOFF then MAIN_MENU
      else if s.menu == SET_COLOR then SET_DROPOFF
      else if s.menu == SET_TIME then (if s.timeEdit then s.menu else MAIN_MENU)
      else if s.menu == GET_COLOR then MAIN_MENU
      else s.menu;
    s.(menu := menu, timeEdit := false, item := 0)
  }

  /** One pass of the loop: Down wins over Up, Up over Center, Center over Left. */
  function Next(s: MenuState, pressed: set<Button>): (r: (MenuState, Action))
    requires Inv(s)
    ensures Inv(r.0) && DrawSafe(r.0)
    ensures r.1 != Stay ==> Center in pressed && Down !in pressed && Up !in pressed
    ensures Down !in pressed && Up !in pressed && Center !in pressed && Left !in pressed ==> r == (s, Stay)
  {
    if Down in pressed then (OnDown(s), Stay)
    else if Up in pressed then (OnUp(s), Stay)
    else if Center in pressed then OnCenter(s)
    else if Left in pressed then (OnLeft(s), Stay)
    else (s, Stay)
  }

  /**
   * The state in which the loop is left (or is still in) after the given
   * passes; a pass that starts or stops ends the loop.
   */
  function Run(s: MenuState, presses: seq<set<Button>>): (r: MenuState)
    requires Inv(s)
    ensures Inv(r) && DrawSafe(r)
    decreases |presses|
  {
    if presses == [] then s
    else
      var (t, action) := Next(s, presses[0]);
      if action.StartSorting? || action.StopProgram? then t else Run(t, presses[1..])
  }

  /** In time-edit mode Down undoes Up. */
  lemma DownUndoesUpInTimeEdit(s: MenuState)
    requires Inv(s) && s.timeEdit
    ensures OnDown(OnUp(s)) == s
  {
  }

  /** Outside time-edit mode Up undoes Down and Down undoes Up. */
  lemma UpUndoesDown(s: MenuState)
    requires Inv(s) && !s.timeEdit
    ensures OnUp(OnDown(s)) == s
    ensures OnDown(OnUp(s)) == s
  {
  }

  /** Outside time-edit mode, `k` passes with Down held move only the item, `k` places along the list. */
  lemma {:induction false} DownPassesMoveItem(s: MenuState, k: nat)
    requires Inv(s) && !s.timeEdit
    ensures Run(s, DownPresses(k)) == s.(item := NextTimes(s.item, ITEM_COUNTS[s.menu], k))
    decreases k
  {
    if k > 0 {
      assert DownPresses(k)[1..] == DownPresses(k - 1);
      DownPassesMoveItem(OnDown(s), k - 1);
      NextTimesAdd(s.item, ITEM_COUNTS[s.menu], 1, k - 1);
    }
  }

  /** Outside time-edit mode, as many Down passes as the menu has items come back to the same state. */
  lemma DownPassesCycle(s: MenuState)
    requires Inv(s) && !s.timeEdit
    ensures Run(s, DownPresses(ITEM_COUNTS[s.menu])) == s
  {
    DownPassesMoveItem(s, ITEM_COUNTS[s.menu]);
    NextTimesCycles(s.item, ITEM_COUNTS[s.menu]);
  }

  /** Setting a zone's colour and backing out lands where the colour list was opened. */
  lemma ChooseColorReturns(s: MenuState, zone: int, choice: int)
    requires Inv(s) && s.menu == SET_DROPOFF && s.item == zone
    requires 0 <= choice < |COLOR_INDEX|
    ensures var open := OnCenter(s).0;
            var chosen := OnCenter(open.(item := choice)).0;
            Inv(open.(item := choice))
            && chosen.menu == SET_DROPOFF && chosen.item == zone
            && chosen.dropOffColor == s.dropOffColor[zone := COLOR_INDEX[choice]]
  {
  }
}
