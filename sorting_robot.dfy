/**
 * The `Robot` class of main.py: the arm's motion helpers, the pick-up /
 * drop-off logic, one sorting cycle of `main()`, and one pass of
 * `menuLoop`. Motors are abstracted as the pose each axis last reached plus a
 * log of the commands issued to them (every `run_target` waits until the
 * target is reached, so the pose is the last target). Sensor readings and
 * the angle at which the gripper stalls are parameters.
 */
module SortingRobot {

  import opened Wrappers
  import opened Parameters
  import opened Classifier
  import MainMenu
  import MenuCommon

  /** Largest base angle `turnBase` lets the base turn to. */
  const MAX_BASE_ANGLE := 260

  /** Elbow targets: sensor-reading / transit height, ground zone, elevated zone. */
  const SENSOR_HEIGHT := 58
  const GROUND_HEIGHT := 30
  const ELEVATED_HEIGHT := 55

  /** Base angles of the three drop-off zones and of the pick-up zone. */
  const DROP_OFF1 := 100
  const DROP_OFF2 := 150
  const DROP_OFF3 := 200
  const PICKUP := 0

  /** The pick-up zone is on the ground. */
  const PICKUP_ELEVATED := false

  /** The gripper angle of an open gripper. */
  const GRIPPER_OPEN := -90
  /** `openGripper` opens only when the elbow motor's angle is above this one (the same -90). */
  const OPEN_IF_ELBOW_ABOVE := -90
  /** `closeGripper` reports a block when the stalled gripper is below this angle. */
  const GRIP_CLOSED_BELOW := -5
  /** `pickUpBlock` gives up on the block when the gripper angle is above this. */
  const GRIP_HELD_ABOVE := -10

  /** `wait_time` after construction, in ms. */
  const INITIAL_WAIT_TIME := 3000

  /** A target issued to a motor: `run_target` on an axis, or a stall-seeking close of the gripper. */
  datatype Command = BaseTo(angle: int) | ElbowTo(angle: int) | GripperTo(angle: int) | GripperClose

  /** One reading of the colour sensor: `color()`, `reflection()` and `rgb()`. */
  datatype ColorSample = ColorSample(color: Option<Color>, reflection: int, rgb: Rgb)

  /** The base is only ever sent to angles inside its safe range. */
  predicate SafeCommand(c: Command) {
    c.BaseTo? ==> 0 <= c.angle <= MAX_BASE_ANGLE
  }

  predicate SafeLog(log: seq<Command>) {
    forall k :: 0 <= k < |log| ==> SafeCommand(log[k])
  }

  function ElbowDownTarget(elevated: bool): int {
    if elevated then ELEVATED_HEIGHT else GROUND_HEIGHT
  }

  /** What `dropBlock(elevated)` issues: lower, open, raise. */
  function DropCommands(elevated: bool): seq<Command> {
    [ElbowTo(ElbowDownTarget(elevated)), GripperTo(GRIPPER_OPEN), ElbowTo(SENSOR_HEIGHT)]
  }

  /** What `pickUpBlock` issues: raise, turn to pick-up, open, lower, close, raise. */
  const PICKUP_COMMANDS: seq<Command> :=
    [ElbowTo(SENSOR_HEIGHT), BaseTo(PICKUP), GripperTo(GRIPPER_OPEN),
     ElbowTo(ElbowDownTarget(PICKUP_ELEVATED)), GripperClose, ElbowTo(SENSOR_HEIGHT)]

  /** The drop-off zones' base angles, `dropOffAngle`. */
  const DROP_OFF_ANGLES: seq<int> := [DROP_OFF1, DROP_OFF2, DROP_OFF3]

  /**
   * `list.index` guarded by `in`: the lowest position holding the colour,
   * or None when no position does (in particular when the colour is None).
   */
  function FirstIndexOf(colors: seq<Color>, c: Option<Color>): (r: Option<nat>)
    ensures r.Some? ==> r.value < |colors| && Some(colors[r.value]) == c
    ensures r.Some? ==> forall j :: 0 <= j < r.value ==> Some(colors[j]) != c
    ensures r.None? <==> forall j :: 0 <= j < |colors| ==> Some(colors[j]) != c
  {
    if colors == [] then None
    else if Some(colors[0]) == c then Some(0)
    else
      match FirstIndexOf(colors[1..], c)
      case Some(k) => Some(k + 1)
      case None => None
  }

  /**
   * `getSizeColorAt(item)`'s place: item 0 (and below) is the pick-up zone,
   * item k the drop-off zone k - 1.
   */
  function ProbeAngle(item: int): int
    requires item <= |DROP_OFF_ANGLES|
  {
    if item - 1 < 0 then PICKUP else DROP_OFF_ANGLES[item - 1]
  }

  function ProbeElevated(item: int): bool {
    if item - 1 < 0 then PICKUP_ELEVATED else false
  }

  /** What `getSizeColorAt(item)` reports: the classified sample if it gripped a block. */
  function ProbeResult(stallAngle: int, sample: ColorSample): Classification {
    if stallAngle < GRIP_CLOSED_BELOW then Classify(sample.color, sample.reflection, sample.rgb)
    else Classification(None, UnknownSize)
  }

  /** What `getSizeColorAt(item)` issues, given the elbow angle before it and whether it gripped. */
  function ProbeCommands(elbowBefore: int, item: int, gripped: bool): seq<Command>
    requires item <= |DROP_OFF_ANGLES|
  {
    (if elbowBefore > OPEN_IF_ELBOW_ABOVE then [GripperTo(GRIPPER_OPEN)] else [])
    + [BaseTo(ProbeAngle(item)), ElbowTo(ElbowDownTarget(ProbeElevated(item))), GripperClose, ElbowTo(SENSOR_HEIGHT)]
    + (if gripped then DropCommands(ProbeElevated(item)) else [])
  }

  class Robot {
    // the arm
    var base: int
    var elbow: int
    var gripper: int
    var log: seq<Command>
    const pickUp: int := PICKUP
    const dropOffAngle: seq<int> := DROP_OFF_ANGLES
    // the configuration
    var dropOffColor: seq<Color>
    var waitTime: int
    // the menu
    var menuSelection: int
    var itemSelection: int
    var timeCheckSelection: bool
    var selectedZone: Option<int>
    var menuTitleTxt: string

    /** The menu loop's view of the fields. */
    function Menu(): MainMenu.MenuState
      reads this`menuSelection, this`itemSelection, this`timeCheckSelection, this`waitTime
      reads this`selectedZone, this`menuTitleTxt, this`dropOffColor
    {
      MainMenu.MenuState(menuSelection, itemSelection, timeCheckSelection, waitTime,
                         selectedZone, menuTitleTxt, dropOffColor)
    }

    /** The base is in its safe range and was never sent outside it. */
    ghost predicate ArmValid()
      reads this`base, this`log
    {
      0 <= base <= MAX_BASE_ANGLE && SafeLog(log)
    }

    /** The menu invariant holds and the arm is valid. */
    ghost predicate Valid()
      reads this
    {
      MainMenu.Inv(Menu()) && ArmValid()
    }

    /**
     * `Robot(elbow_end, base_offset)`: after the three homing routines the
     * gripper is open, the elbow at `elbowEnd` and the base at its new zero.
     */
    constructor (elbowEnd: int, baseOffset: int)
      ensures Valid()
      ensures base == 0 && elbow == elbowEnd && gripper == GRIPPER_OPEN && log == []
      ensures dropOffColor == [Blue, Red, Green] && waitTime == INITIAL_WAIT_TIME
      ensures Menu() == MainMenu.MenuState(MainMenu.MAIN_MENU, 0, false, INITIAL_WAIT_TIME, None, "", [Blue, Red, Green])
    {
      gripper := GRIPPER_OPEN;
      elbow := elbowEnd;
      base := 0;
      log := [];
      waitTime := INITIAL_WAIT_TIME;
      dropOffColor := [Blue, Red, Green];
      menuSelection, itemSelection, timeCheckSelection := MainMenu.MAIN_MENU, 0, false;
      selectedZone, menuTitleTxt := None, "";
    }

    /** Opens the gripper, on the condition main.py tests: the elbow motor's angle above -90. */
    method OpenGripper()
      requires ArmValid()
      modifies this`gripper, this`log
      ensures ArmValid()
      ensures elbow > OPEN_IF_ELBOW_ABOVE ==> gripper == GRIPPER_OPEN && log == old(log) + [GripperTo(GRIPPER_OPEN)]
      ensures elbow <= OPEN_IF_ELBOW_ABOVE ==> gripper == old(gripper) && log == old(log)
    {
      if elbow > OPEN_IF_ELBOW_ABOVE {
        gripper := GRIPPER_OPEN;
        log := log + [GripperTo(GRIPPER_OPEN)];
      }
    }

    /** Closes the gripper until it stalls at `stallAngle`; a block is there iff that is below -5. */
    method CloseGripper(stallAngle: int) returns (present: bool)
      requires ArmValid()
      modifies this`gripper, this`log
      ensures ArmValid()
      ensures gripper == stallAngle && log == old(log) + [GripperClose]
      ensures present <==> stallAngle < GRIP_CLOSED_BELOW
    {
      gripper := stallAngle;
      log := log + [GripperClose];
      present := gripper < GRIP_CLOSED_BELOW;
    }

    /** Turns the base to `angle` only when it lies in 0..MAX_BASE_ANGLE; otherwise does nothing. */
    method TurnBase(angle: int)
      requires ArmValid()
      modifies this`base, this`log
      ensures ArmValid()
      ensures 0 <= angle <= MAX_BASE_ANGLE ==> base == angle && log == old(log) + [BaseTo(angle)]
      ensures !(0 <= angle <= MAX_BASE_ANGLE) ==> base == old(base) && log == old(log)
    {
      if angle >= 0 && angle <= MAX_BASE_ANGLE {
        base := angle;
        log := log + [BaseTo(angle)];
      }
    }

    method ElbowUp()
      requires ArmValid()
      modifies this`elbow, this`log
      ensures ArmValid()
      ensures elbow == SENSOR_HEIGHT && log == old(log) + [ElbowTo(SENSOR_HEIGHT)]
    {
      elbow := SENSOR_HEIGHT;
      log := log + [ElbowTo(SENSOR_HEIGHT)];
    }

    method ElbowDown(elevated: bool)
      requires ArmValid()
      modifies this`elbow, this`log
      ensures ArmValid()
      ensures elbow == ElbowDownTarget(elevated) && log == old(log) + [ElbowTo(ElbowDownTarget(elevated))]
    {
      var target := if elevated then ELEVATED_HEIGHT else GROUND_HEIGHT;
      elbow := target;
      log := log + [ElbowTo(target)];
    }

    method GoToPickUp()
      requires ArmValid()
      modifies this`base, this`log
      ensures ArmValid()
      ensures base == PICKUP && log == old(log) + [BaseTo(PICKUP)]
    {
      TurnBase(pickUp);
    }

    method GoToDropOff(index: int)
      requires ArmValid() && 0 <= index < |dropOffAngle|
      modifies this`base, this`log
      ensures ArmValid()
      ensures base == dropOffAngle[index] && log == old(log) + [BaseTo(dropOffAngle[index])]
    {
      TurnBase(dropOffAngle[index]);
    }

    /** Lowers the block, lets go of it and raises the elbow again. */
    method DropBlock(elevated: bool)
      requires ArmValid()
      modifies this`elbow, this`gripper, this`log
      ensures ArmValid()
      ensures elbow == SENSOR_HEIGHT && gripper == GRIPPER_OPEN
      ensures log == old(log) + DropCommands(elevated)
    {
      ElbowDown(elevated);
      OpenGripper();
      ElbowUp();
    }

    /**
     * Picks a block up at the pick-up zone and classifies it. The result
     * says a block is held only if the gripper stalled at -10 or below and
     * the sensor saw a colour; the colour is returned whenever the close
     * reported a block.
     */
    method PickUpBlock(stallAngle: int, sample: ColorSample) returns (present: bool, color: Option<Color>)
      requires ArmValid()
      modifies this`base, this`elbow, this`gripper, this`log
      ensures ArmValid()
      ensures base == PICKUP && elbow == SENSOR_HEIGHT && gripper == stallAngle
      ensures log == old(log) + PICKUP_COMMANDS
      ensures color == ProbeResult(stallAngle, sample).color
      ensures present <==> stallAngle <= GRIP_HELD_ABOVE && sample.color.Some?
      ensures present ==> color.Some? && color == Classify(sample.color, sample.reflection, sample.rgb).color
    {
      ElbowUp();
      GoToPickUp();
      OpenGripper();

      ElbowDown(PICKUP_ELEVATED);
      var blockPresent := CloseGripper(stallAngle);
      ElbowUp();

      if blockPresent {
        var c := Classify(sample.color, sample.reflection, sample.rgb);
        color := c.color;
      } else {
        color := None;
      }

      if gripper > GRIP_HELD_ABOVE || color == None {
        present := false;
      } else {
        present := true;
      }
    }

    /**
     * Takes the held block to the first zone whose colour is `color` and,
     * if the sensor still sees it there (`seen`), drops it. Returns whether
     * such a zone exists; when none does, nothing moves.
     */
    method DropOffAtColor(color: Option<Color>, seen: Option<Color>) returns (dropped: bool)
      requires Valid()
      modifies this`base, this`elbow, this`gripper, this`log
      ensures Valid()
      ensures dropped <==> FirstIndexOf(dropOffColor, color).Some?
      ensures dropped ==>
                var i := FirstIndexOf(dropOffColor, color).value;
                && base == dropOffAngle[i]
                && log == old(log) + [BaseTo(dropOffAngle[i])] + (if seen.Some? then DropCommands(false) else [])
                && (seen.Some? ==> elbow == SENSOR_HEIGHT && gripper == GRIPPER_OPEN)
                && (seen.None? ==> elbow == old(elbow) && gripper == old(gripper))
      ensures !dropped ==> base == old(base) && elbow == old(elbow) && gripper == old(gripper) && log == old(log)
    {
      if color.Some? && color.value in dropOffColor {
        var i := FirstIndexOf(dropOffColor, color).value;
        GoToDropOff(i);
        var blockColor := seen;
        if blockColor != None {
          DropBlock(false);
        }
        return true;
      }
      return false;
    }

    /** `getSizeColorAt`'s approach: turn to the place of item `i + 1` and lower the elbow there. */
    method LowerAtProbePlace(i: int)
      requires ArmValid() && i < |dropOffAngle|
      modifies this`base, this`elbow, this`log
      ensures ArmValid()
      ensures base == ProbeAngle(i + 1) && elbow == ElbowDownTarget(ProbeElevated(i + 1))
      ensures log == old(log) + [BaseTo(ProbeAngle(i + 1)), ElbowTo(ElbowDownTarget(ProbeElevated(i + 1)))]
    {
      if i < 0 {
        GoToPickUp();
        ElbowDown(PICKUP_ELEVATED);
      } else {
        GoToDropOff(i);
        ElbowDown(false);
      }
    }

    /** `getSizeColorAt`'s return of a gripped block to the place of item `i + 1`. */
    method DropAtProbePlace(i: int)
      requires ArmValid()
      modifies this`elbow, this`gripper, this`log
      ensures ArmValid()
      ensures elbow == SENSOR_HEIGHT && gripper == GRIPPER_OPEN
      ensures log == old(log) + DropCommands(ProbeElevated(i + 1))
    {
      if i < 0 {
        DropBlock(PICKUP_ELEVATED);
      } else {
        DropBlock(false);
      }
    }

    /**
     * Reads colour and size at the place of menu item `index` (0: pick-up,
     * k: drop-off zone k - 1): grips whatever is there, classifies it and
     * puts it back.
     */
    method GetSizeColorAt(index: int, stallAngle: int, sample: ColorSample) returns (r: Classification)
      requires ArmValid() && index <= |dropOffAngle|
      modifies this`base, this`elbow, this`gripper, this`log
      ensures ArmValid()
      ensures r == ProbeResult(stallAngle, sample)
      ensures base == ProbeAngle(index) && elbow == SENSOR_HEIGHT
      ensures gripper == if stallAngle < GRIP_CLOSED_BELOW then GRIPPER_OPEN else stallAngle
      ensures log == old(log) + ProbeCommands(old(elbow), index, stallAngle < GRIP_CLOSED_BELOW)
    {
      var color: Option<Color> := None;
      var size := UnknownSize;
      var i := index - 1;
      ghost var before := log;
      ghost var opening: seq<Command> := if elbow > OPEN_IF_ELBOW_ABOVE then [GripperTo(GRIPPER_OPEN)] else [];

      OpenGripper();
      LowerAtProbePlace(i);
      var blockPresent := CloseGripper(stallAngle);
      ElbowUp();
      ghost var probing := [BaseTo(ProbeAngle(index)), ElbowTo(ElbowDownTarget(ProbeElevated(index))), GripperClose, ElbowTo(SENSOR_HEIGHT)];
      assert log == before + opening + probing;

      if blockPresent {
        var c := Classify(sample.color, sample.reflection, sample.rgb);
        color, size := c.color, c.size;
        DropAtProbePlace(i);
        assert log == before + opening + probing + DropCommands(ProbeElevated(index));
      }
      r := Classification(color, size);
    }

    /**
     * One pass of the sorting loop of `main()`: pick a block up, take it to
     * its zone, and if no zone has its colour put it back at the pick-up zone
     * (when the sensor, `seenAtPickup`, still sees it). `seenAtZone` is the
     * reading at the drop-off zone.
     */
    method SortCycle(stallAngle: int, sample: ColorSample, seenAtZone: Option<Color>, seenAtPickup: Option<Color>)
      requires Valid()
      modifies this`base, this`elbow, this`gripper, this`log
      ensures Valid()
      ensures var held := stallAngle <= GRIP_HELD_ABOVE && sample.color.Some?;
              var zone := FirstIndexOf(dropOffColor, Classify(sample.color, sample.reflection, sample.rgb).color);
              && elbow == SENSOR_HEIGHT
              && (held && zone.Some? ==>
                    && base == dropOffAngle[zone.value]
                    && log == old(log) + PICKUP_COMMANDS + [BaseTo(dropOffAngle[zone.value])]
                              + (if seenAtZone.Some? then DropCommands(false) else [])
                    && gripper == if seenAtZone.Some? then GRIPPER_OPEN else stallAngle)
              && (held && zone.None? ==>
                    && base == PICKUP
                    && log == old(log) + PICKUP_COMMANDS + (if seenAtPickup.Some? then DropCommands(PICKUP_ELEVATED) else [])
                    && gripper == if seenAtPickup.Some? then GRIPPER_OPEN else stallAngle)
              && (!held ==> base == PICKUP && log == old(log) + PICKUP_COMMANDS && gripper == stallAngle)
    {
      var blockPresent, color := PickUpBlock(stallAngle, sample);
      if blockPresent {
        var dropped := DropOffAtColor(color, seenAtZone);
        blockPresent := !dropped;
      }
      if blockPresent && seenAtPickup != None {
        DropBlock(PICKUP_ELEVATED);
      }
    }

    /** Entry to `menuLoop`: the main menu with its first item highlighted. */
    method EnterMenu()
      requires Valid()
      modifies this`menuSelection, this`itemSelection, this`timeCheckSelection, this`selectedZone
      ensures Valid()
      ensures Menu() == MainMenu.Enter(old(Menu()))
    {
      menuSelection := MainMenu.MAIN_MENU;
      itemSelection := 0;
      timeCheckSelection := false;
      selectedZone := None;
    }

    /** Down: the next item, or in time-edit mode 1000 ms less wait (never below zero). */
    method PressDown()
      requires Valid()
      modifies this`itemSelection, this`waitTime
      ensures Valid()
      ensures Menu() == MainMenu.OnDown(old(Menu()))
    {
      if !timeCheckSelection {
        itemSelection := (itemSelection + 1) % MainMenu.ITEM_COUNTS[menuSelection];
      } else {
        waitTime := waitTime - if waitTime > 999 then MainMenu.TIME_STEP else 0;
      }
    }

    /** Up: the previous item, or in time-edit mode 1000 ms more wait. */
    method PressUp()
      requires Valid()
      modifies this`itemSelection, this`waitTime
      ensures Valid()
      ensures Menu() == MainMenu.OnUp(old(Menu()))
    {
      if !timeCheckSelection {
        itemSelection := (itemSelection - 1) % MainMenu.ITEM_COUNTS[menuSelection];
      } else {
        waitTime := waitTime + MainMenu.TIME_STEP;
      }
    }

    /** Center outside "Get Color At": select the highlighted item; the arm is not involved. */
    method SelectItem() returns (action: MainMenu.Action)
      requires Valid() && menuSelection != MainMenu.GET_COLOR
      modifies this`menuSelection, this`itemSelection, this`timeCheckSelection
      modifies this`selectedZone, this`menuTitleTxt, this`dropOffColor
      ensures Valid()
      ensures (Menu(), action) == MainMenu.OnCenter(old(Menu()))
    {
      action := MainMenu.Stay;
      if menuSelection == MainMenu.MAIN_MENU {
        if itemSelection == 0 {
          action := MainMenu.StartSorting;
        } else if itemSelection == 1 {
          menuSelection := MainMenu.SET_DROPOFF;
          itemSelection := 0;
        } else if itemSelection == 2 {
          menuSelection := MainMenu.SET_TIME;
          itemSelection := 0;
        } else if itemSelection == 3 {
          menuSelection := MainMenu.GET_COLOR;
          itemSelection := 0;
        } else if itemSelection == MainMenu.STOP_ITEM {
          action := MainMenu.StopProgram;
        }

      } else if menuSelection == MainMenu.SET_DROPOFF {
        selectedZone := Some(itemSelection);
        menuTitleTxt := MenuCommon.ZoneTitle(itemSelection);
        menuSelection := MainMenu.SET_COLOR;
        itemSelection := 0;

      } else if menuSelection == MainMenu.SET_COLOR {
        var zone := selectedZone.value;
        dropOffColor := dropOffColor[zone := MenuCommon.COLOR_INDEX[itemSelection]];
        menuSelection := MainMenu.SET_DROPOFF;
        itemSelection := zone;

      } else if menuSelection == MainMenu.SET_TIME {
        if itemSelection == 0 {
          timeCheckSelection := !timeCheckSelection;
        }
      }
    }

    /** Center: select the highlighted item; in "Get Color At" read the colour there. */
    method PressCenter(stallAngle: int, sample: ColorSample) returns (action: MainMenu.Action, shown: Option<Classification>)
      requires Valid()
      modifies this
      ensures Valid()
      ensures (Menu(), action) == MainMenu.OnCenter(old(Menu()))
      ensures action.Probe? ==>
                && shown == Some(ProbeResult(stallAngle, sample))
                && base == ProbeAngle(action.zoneItem) && elbow == SENSOR_HEIGHT
                && gripper == (if stallAngle < GRIP_CLOSED_BELOW then GRIPPER_OPEN else stallAngle)
                && log == old(log) + ProbeCommands(old(elbow), action.zoneItem, stallAngle < GRIP_CLOSED_BELOW)
      ensures !action.Probe? ==>
                shown.None? && base == old(base) && elbow == old(elbow) && gripper == old(gripper) && log == old(log)
    {
      if menuSelection == MainMenu.GET_COLOR {
        var reading := GetSizeColorAt(itemSelection, stallAngle, sample);
        action, shown := MainMenu.Probe(itemSelection), Some(reading);
      } else {
        action := SelectItem();
        shown := None;
      }
    }

    /** Left: back out one level, or leave time-edit mode; the first item is highlighted. */
    method PressLeft()
      requires Valid()
      modifies this`menuSelection, this`timeCheckSelection, this`itemSelection
      ensures Valid()
      ensures Menu() == MainMenu.OnLeft(old(Menu()))
    {
      if menuSelection == MainMenu.SET_DROPOFF {
        menuSelection := MainMenu.MAIN_MENU;
      } else if menuSelection == MainMenu.SET_COLOR {
        menuSelection := MainMenu.SET_DROPOFF;
      } else if menuSelection == MainMenu.SET_TIME {
        if timeCheckSelection {
          timeCheckSelection := false;
        } else {
          menuSelection := MainMenu.MAIN_MENU;
        }
      } else if menuSelection == MainMenu.GET_COLOR {
        menuSelection := MainMenu.MAIN_MENU;
      }
      itemSelection := 0;
    }

    /**
     * One pass of `menuLoop` with `pressed` held down: Down wins over Up,
     * Up over Center, Center over Left. The menu fields move as
     * `MainMenu.Next` says; only Center in "Get Color At" moves the arm,
     * gripping with `stallAngle` and reading `sample`, and its reading is
     * returned in `shown`.
     */
    method Step(pressed: set<Button>, stallAngle: int, sample: ColorSample) returns (action: MainMenu.Action, shown: Option<Classification>)
      requires Valid()
      modifies this
      ensures Valid()
      ensures (Menu(), action) == MainMenu.Next(old(Menu()), pressed)
      ensures action.Probe? ==>
                && shown == Some(ProbeResult(stallAngle, sample))
                && base == ProbeAngle(action.zoneItem) && elbow == SENSOR_HEIGHT
                && gripper == (if stallAngle < GRIP_CLOSED_BELOW then GRIPPER_OPEN else stallAngle)
                && log == old(log) + ProbeCommands(old(elbow), action.zoneItem, stallAngle < GRIP_CLOSED_BELOW)
      ensures !action.Probe? ==>
                shown.None? && base == old(base) && elbow == old(elbow) && gripper == old(gripper) && log == old(log)
    {
      action, shown := MainMenu.Stay, None;
      if Down in pressed {
        PressDown();
      } else if Up in pressed {
        PressUp();
      } else if Center in pressed {
        action, shown := PressCenter(stallAngle, sample);
      } else if Left in pressed {
        PressLeft();
      }
    }
  }
}
