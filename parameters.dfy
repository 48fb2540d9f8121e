/**
 * The two enumerations the robot programs take from `pybricks.parameters`:
 * the colours the EV3 colour sensor reports and the buttons of the brick.
 */
module Parameters {

  /** The nine members of the EV3 `Color` enumeration. */
  datatype Color = Black | Blue | Green | Yellow | Red | White | Brown | Orange | Purple

  /** The brick's buttons; `Right` is pressed-but-ignored by both menus. */
  datatype Button = Left | Right | Center | Up | Down
}
