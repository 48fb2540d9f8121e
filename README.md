# Sorting-robot decision logic and configuration menus, in Dafny

This project models the decision logic of a LEGO EV3 pick-and-place robot
(rotating base, elbow, gripper, colour sensor) written in Python for
pybricks-MicroPython, and proves properties of that model. Two programs are
covered:

- **main.py**, the sorting program: `formatColor` (colour ↔ name), the
  classifier `Robot.getColor`, the motion helpers with their safety guards
  (`turnBase`, `openGripper`, `closeGripper`, `dropBlock`, …), the pick-up
  and drop-off logic (`pickUpBlock`, `dropOffAtColor`, `getSizeColorAt`),
  one sorting cycle of `main()`, and the transitions of the configuration
  menu `menuLoop` (main menu, zone list, colour list, time setting,
  "Get Color At").
- **menu.py**, the earlier stand-alone menu: main menu, zone list, colour
  list.

## Layout

| file | module | models |
|---|---|---|
| wrappers.dfy | `Wrappers` | Python's `None` as `Option` |
| parameters.dfy | `Parameters` | pybricks `Color` (nine members) and `Button` |
| strings.dfy | `Strings` | MicroPython `str.upper` (ASCII) and `str(n)` |
| format_color.dfy | `ColorNames` | `formatColor` |
| classifier.dfy | `Classifier` | `Robot.getColor` as a pure function of the three readings |
| menu_common.dfy | `MenuCommon` | Up/Down wrap-around, the colour choices, the colour-list title (shared by both programs) |
| main_menu.dfy | `MainMenu` | `menuLoop` of main.py as a transition function |
| sorting_robot.dfy | `SortingRobot` | the `Robot` class of main.py |
| menu_prototype.dfy | `MenuPrototype` | `menuLoop` of menu.py, as a function and as a class |

## How the hardware is abstracted

- Every motor is a pose field (`base`, `elbow`, `gripper`) holding the
  angle it last reached; `run_target` blocks until the target is reached,
  so the pose after a command is its target. Every command issued is
  appended to `log` (`BaseTo`, `ElbowTo`, `GripperTo`, `GripperClose`).
- The angle at which the gripper stalls when closing, and every colour
  sensor reading (`color()`, `reflection()`, `rgb()`), are method
  parameters. The gripper angle read back by `pickUpBlock` is the pose set
  by `closeGripper` (the motor holds it).
- Each menu is a pure transition function `Next(state, pressed)` over a
  `MenuState` value, proved to keep the loop invariant `Inv`; the class
  method `Step` performs the same pass on the object's fields and is proved
  equal to `Next`. `Inv` implies `DrawSafe`: every list lookup the drawing
  code makes (`menu_title[…]`, `menu_items[…]`, `dropOffColor[…]`,
  `color_names[…]`) succeeds.
- The loop-local `selected_zone` is a field of type `Option<int>`; `None`
  stands for "not yet assigned". `Inv` shows it is always assigned, and
  names a zone, whenever the colour list is open.

## Behaviour of the programs worth knowing

- `getColor` reports no reading as `(None, UNKNOWN)` and passes White,
  Orange and Purple through unchanged with size `UNKNOWN`. Red, yellow and
  brown blocks are big when the reflection is above 50; green, blue and
  black ones when it is above 9.
- `dropOffAtColor` looks the colour up in the three drop-off zones only.
  A block whose colour no zone has is put back at the pick-up zone only
  when the sensor still sees it there (`SortCycle`). A block that the
  sensor does not see at its drop-off zone stays in the gripper, although
  `dropOffAtColor` reports success.
- In main.py's time menu, Left while editing the time only leaves
  time-edit mode. It does not leave the menu.
- Every drop-off zone is on the ground: the elbow is lowered to 30 there.
  The elevated height 55 is used only at the pick-up zone, and only when
  `PICKUP_ELEVATED` is set, which it is not.
- The colour-list title shows the zone's zero-based position
  ("Set Color For: Zone 0" for the list entry "Zone 1: "). The model keeps
  the title as written (`MenuCommon.ZoneTitle`).
- `openGripper` tests the angle of the elbow motor, not the gripper,
  before opening. The model keeps that test (`OPEN_IF_ELBOW_ABOVE`).

## Model

| member | source | states |
|---|---|---|
| Strings.Upper | main.py:34 | upper-casing keeps the length and maps each character to its capital (ASCII, as in MicroPython) |
| Strings.UpperIdempotent | main.py:34 | upper-casing an upper-cased string changes nothing |
| Strings.Decimal | main.py:347 | `str(n)` is a non-empty digit string without leading zero whose value is `n` |
| ColorNames.ColorAttribute | main.py:34-36 | `getattr(Color, name)` gives the colour whose attribute name is `name`, and none when no colour has that name |
| ColorNames.DisplayName | main.py:39-58 | each colour's display name upper-cases to its attribute name |
| ColorNames.FormatColor | main.py:30-61 | a string gives a colour or None, a colour gives a name other than "Error", anything else gives "Error" |
| ColorNames.AttributeNameInjective | main.py:34-36 | no two colours are held under the same attribute name, so `getattr` names one colour at most |
| ColorNames.AttributeReadsBack | main.py:34-36 | looking up a colour's attribute name gives that colour back |
| ColorNames.RoundTrip | main.py:30-61 | for each of the nine colours, `formatColor(formatColor(c)) == c` |
| ColorNames.NameReadsAs | main.py:32-36 | a string reads as colour `c` iff it equals `c`'s display name ignoring case |
| ColorNames.UnknownNameIsNone | main.py:32-36 | a string gives None iff it spells no colour's name |
| ColorNames.ReadThenName | main.py:30-61 | reading a colour name and naming the colour gives the name back up to case |
| Classifier.Classify | main.py:156-182 | no reading gives (None, UNKNOWN); red is big iff reflection > 50; green/blue/black become blue iff blue channel > green channel, else green, big iff reflection > 9; yellow/brown become yellow, big iff reflection > 50; any other colour passes through with UNKNOWN |
| Classifier.OutputRange | main.py:161-181 | the result is never brown or black, has a colour iff the reading had one, and has a known size (then with red, green, blue or yellow) iff the colour was one of the six recognised |
| MenuCommon.NextItem | main.py:309 | Down gives an item in range: the next one, and 0 after the last |
| MenuCommon.PrevItem | main.py:316 | Up gives an item in range: the previous one, and the last before 0 |
| MenuCommon.PrevUndoesNext | menu.py:135-140 | Up undoes Down and Down undoes Up on every item |
| MenuCommon.NextTimes | main.py:307-309 | pressing Down any number of times stays in range |
| MenuCommon.NextTimesAdd | main.py:307-309 | k + m presses of Down are k presses and then m more |
| MenuCommon.NextTimesClimbs | main.py:307-309 | Down moves one place at a time until the last item |
| MenuCommon.NextTimesCycles | main.py:307-309 | as many Down presses as the list has items come back to the same item |
| MenuCommon.ZoneTitle | main.py:347 | the colour-list title is "Set Color For: Zone " followed by the zone number |
| MainMenu.InvMakesDrawSafe | main.py:259-288 | in every state satisfying the loop invariant, the title, item-list and zone-colour lookups of the drawing code succeed |
| MainMenu.Enter | main.py:292-294 | entering the loop opens the main menu at item 0 outside time-edit mode, keeping wait time and zone colours |
| MainMenu.OnDown | main.py:307-312 | outside time-edit mode only the item moves, wrapping from last to 0; in time-edit mode only the wait changes, by -1000 iff it is at least 1000; the invariant (wait ≥ 0) is kept |
| MainMenu.OnUp | main.py:314-320 | outside time-edit mode only the item moves, wrapping from 0 to last; in time-edit mode only the wait changes, by +1000 |
| MainMenu.OnCenter | main.py:324-381 | Start and Stop end the loop and change nothing; items 1-3 open their menus at item 0; a zone opens the colour list with its title; a colour is written into the selected zone only and that zone is highlighted again; the time item toggles time-edit mode; "Get Color At" asks for a reading at the highlighted place |
| MainMenu.OnLeft | main.py:384-398 | back to the main menu, or from the colour list to the zone list, or (in time-edit mode) out of time-edit mode only; item 0 afterwards |
| MainMenu.Next | main.py:303-400 | one pass keeps the invariant (item in range, time-edit only in the time menu, wait ≥ 0, zone selected in the colour list) and drawing stays safe; only Center, without Down or Up, can end the loop or read a colour; no button changes nothing |
| MainMenu.Run | main.py:303-400 | any sequence of passes keeps the invariant and drawing safety |
| MainMenu.DownUndoesUpInTimeEdit | main.py:311-318 | in time-edit mode Down after Up restores the state |
| MainMenu.DownPassesMoveItem | main.py:303-312 | outside time-edit mode, k loop passes with Down held change only the item, which moves k places along the wrapping list (`MenuCommon.NextTimes`) |
| MainMenu.DownPassesCycle | main.py:303-312 | outside time-edit mode, as many Down passes as the current menu has items give back the same state |
| MainMenu.UpUndoesDown | main.py:309-316 | outside time-edit mode Up undoes Down and Down undoes Up |
| MainMenu.ChooseColorReturns | main.py:345-356 | opening a zone and choosing a colour returns to that zone in the zone list with exactly that zone recoloured |
| SortingRobot.FirstIndexOf | main.py:210-211 | the lowest position holding the colour; None exactly when no position holds it |
| SortingRobot.Robot.constructor | main.py:67-87 | after homing: gripper open, elbow at its end angle, base at 0, zones blue/red/green, wait 3000 ms |
| SortingRobot.Robot.OpenGripper | main.py:113-115 | the gripper opens to -90 iff the elbow angle is above -90 |
| SortingRobot.Robot.CloseGripper | main.py:117-124 | the gripper stalls at the given angle; a block is reported iff that angle is below -5 |
| SortingRobot.Robot.TurnBase | main.py:127-130 | the base is sent to the angle iff 0 ≤ angle ≤ 260, otherwise nothing is issued and it stays |
| SortingRobot.Robot.ElbowUp | main.py:133-135 | the elbow goes to the sensor height 58 |
| SortingRobot.Robot.ElbowDown | main.py:137-141 | the elbow goes to 55 when elevated, 30 otherwise |
| SortingRobot.Robot.GoToPickUp | main.py:144-145 | the base goes to the pick-up angle 0 |
| SortingRobot.Robot.GoToDropOff | main.py:147-148 | the base goes to the zone's angle |
| SortingRobot.Robot.DropBlock | main.py:150-153 | lower, open, raise: the gripper ends open and the elbow at sensor height |
| SortingRobot.Robot.PickUpBlock | main.py:185-206 | the arm ends at pick-up, raised, gripper at the stall angle; the colour is the classified one iff the close reported a block; a block is reported iff the stall angle is ≤ -10 and the sensor saw a colour |
| SortingRobot.Robot.DropOffAtColor | main.py:209-216 | succeeds iff some zone has the colour; then the base goes to the lowest such zone and the block is dropped iff the sensor sees it; otherwise nothing moves and nothing is issued |
| SortingRobot.Robot.LowerAtProbePlace | main.py:226-231 | the arm turns to the pick-up zone for item 0 and to drop-off zone k-1 for item k, then lowers the elbow to that place's height |
| SortingRobot.Robot.DropAtProbePlace | main.py:238-241 | a gripped block is put down at that place's height, leaving the gripper open and the elbow raised |
| SortingRobot.Robot.GetSizeColorAt | main.py:219-246 | item 0 reads at the pick-up zone, item k at drop-off zone k-1; the result is the classification iff a block was gripped, else (None, UNKNOWN); a gripped block is put back |
| SortingRobot.Robot.SortCycle | main.py:415-429 | a held block goes to the lowest zone of its colour; a block no zone takes stays at the pick-up zone and is put down there when seen; with no block the arm stays at pick-up |
| SortingRobot.Robot.EnterMenu | main.py:292-294 | the menu fields are reset as `MainMenu.Enter` says |
| SortingRobot.Robot.PressDown | main.py:307-312 | Down on the fields is `MainMenu.OnDown` |
| SortingRobot.Robot.PressUp | main.py:314-320 | Up on the fields is `MainMenu.OnUp` |
| SortingRobot.Robot.SelectItem | main.py:324-362 | outside "Get Color At", Center on the fields is `MainMenu.OnCenter`: it opens a submenu, starts, stops, selects a zone, stores a colour or toggles time-edit mode, and keeps the menu invariant |
| SortingRobot.Robot.PressCenter | main.py:324-381 | Center on the fields is `MainMenu.OnCenter`; in "Get Color At" the arm probes the place as `GetSizeColorAt` says, otherwise the arm is untouched |
| SortingRobot.Robot.PressLeft | main.py:384-398 | Left on the fields is `MainMenu.OnLeft` |
| SortingRobot.Robot.Step | main.py:303-400 | one loop pass on the fields is `MainMenu.Next`, keeps the invariant and the base's safe range, and moves the arm only to probe |
| MenuPrototype.ChoicesAreNamed | menu.py:86-91 | every colour the colour list offers has an entry in `color_names` |
| MenuPrototype.InvMakesDrawSafe | menu.py:95-107 | in every invariant state the title, item-list and `color_names` lookups of the drawing code succeed |
| MenuPrototype.Enter | menu.py:119-121 | entering the loop opens the main menu at item 0 with no title text; the zone colours are kept and the loop-local `selected_zone` is not yet assigned |
| MenuPrototype.OnDown | menu.py:135-137 | only the item moves, wrapping from last to 0 |
| MenuPrototype.OnUp | menu.py:138-140 | only the item moves, wrapping from 0 to last |
| MenuPrototype.OnCenter | menu.py:143-167 | in the main menu item 1 opens the zone list, item 3 ends the loop, items 0 and 2 change nothing; a zone opens the colour list with its title; a colour is written into the selected zone only, the title is cleared and the zone highlighted |
| MenuPrototype.OnLeft | menu.py:172-181 | exactly one level up (2 to 1, 1 to 0, 0 stays), item 0 and no title text afterwards |
| MenuPrototype.Next | menu.py:131-183 | one pass keeps the invariant (title text set iff in the colour list, every zone colour named) and drawing safety; only Center ends the loop, leaving the state unchanged |
| MenuPrototype.Run | menu.py:131-183 | any sequence of passes keeps the invariant and drawing safety |
| MenuPrototype.DownPassesMoveItem | menu.py:131-137 | k loop passes with Down held change only the item, which moves k places along the wrapping list (`MenuCommon.NextTimes`) |
| MenuPrototype.DownPassesCycle | menu.py:131-137 | as many Down passes as the current menu has items give back the same state |
| MenuPrototype.UpUndoesDown | menu.py:135-140 | Up undoes Down and Down undoes Up |
| MenuPrototype.Robot.constructor | menu.py:35-45 | the zones start blue, red and green |
| MenuPrototype.Robot.EnterMenu | menu.py:119-121 | the fields are reset as `MenuPrototype.Enter` says |
| MenuPrototype.Robot.Step | menu.py:131-183 | one loop pass on the fields, written with the program's two sequential Left tests, is `MenuPrototype.Next` |

## Left out

- Motor and sensor drivers (construction, `control.limits`, speeds, stop
  modes, `reset_angle`): hardware; motors are pose fields and a command log,
  readings are parameters.
- The homing routines `initGripper`, `initElbow`, `initBase`: loops waiting
  for a stall or a switch; only the pose they leave is modelled
  (`Robot.constructor`).
- Screen drawing (`menuDraw`, the result screen after "Get Color At") and
  `print`: output only; the lookups they make are stated by `DrawSafe`.
- All `wait(...)` calls, the debounce waits, the wait for Center after a
  colour reading, and `wait(robot.wait_time)`: timing is not modelled.
- The forever loop of `main()` and its two Left-button checks that reopen
  the menu: only one sorting cycle (`SortCycle`) is modelled.
- menu.py's `buttonTest` and `main()`: button printing only.
- `formatColor`'s "Unknown" text: unreachable, since the modelled `Color`
  has exactly its nine named members.
- SortingRobot.Robot.PickUpBlock: does not model the gripper angle drifting
  between the close and the read-back, because the motor holds its position
  and the model keeps one gripper pose.
- Strings.Upper: only ASCII letters are upper-cased, as MicroPython does;
  CPython's full Unicode case mapping is not modelled.
