/**
 * `Robot.getColor` (main.py): the fixed decision table that turns one
 * colour-sensor sample into a colour and a size token. The three readings
 * (`color()`, `reflection()`, `rgb()`) are parameters.
 */
module Classifier {

  import opened Wrappers
  import opened Parameters

  /** The size tokens "SMALL", "BIG" and "UNKNOWN". */
  datatype Size = Small | Big | UnknownSize

  /** The sensor's raw `(red, green, blue)` triple. */
  datatype Rgb = Rgb(red: int, green: int, blue: int)

  datatype Classification = Classification(color: Option<Color>, size: Size)

  /** Reflection above which a red, yellow or brown block is big. */
  const WARM_BIG_REFLECTION := 50
  /** Reflection above which a green, blue or black block is big. */
  const COOL_BIG_REFLECTION := 9

  /** The sensor colours the table recognises; any other passes through. */
  predicate Recognised(c: Color) {
    c in {Red, Green, Blue, Black, Yellow, Brown}
  }

  function SizeAbove(reflection: int, threshold: int): Size {
    if reflection > threshold then Big else Small
  }

  function Classify(raw: Option<Color>, reflection: int, rgb: Rgb): (r: Classification)
    // no reading: no colour, unknown size
    ensures raw.None? ==> r == Classification(None, UnknownSize)
    // red stays red; big iff reflection > 50
    ensures raw == Some(Red) ==> r.color == Some(Red) && (r.size == Big <==> reflection > 50) && r.size != UnknownSize
    // green, blue and black are told apart by the blue and green channels; big iff reflection > 9
    ensures raw in {Some(Green), Some(Blue), Some(Black)} ==>
              r.color == (if rgb.blue > rgb.green then Some(Blue) else Some(Green))
              && (r.size == Big <==> reflection > 9) && r.size != UnknownSize
    // yellow and brown both become yellow; big iff reflection > 50
    ensures raw in {Some(Yellow), Some(Brown)} ==>
              r.color == Some(Yellow) && (r.size == Big <==> reflection > 50) && r.size != UnknownSize
    // anything else passes through with an unknown size
    ensures raw.Some? && !Recognised(raw.value) ==> r == Classification(raw, UnknownSize)
  {
    match raw
    case None => Classification(None, UnknownSize)
    case Some(c) =>
      if c == Red then Classification(raw, SizeAbove(reflection, WARM_BIG_REFLECTION))
      else if c == Green || c == Blue || c == Black then
        Classification(if rgb.blue > rgb.green then Some(Blue) else Some(Green),
                       SizeAbove(reflection, COOL_BIG_REFLECTION))
      else if c == Yellow || c == Brown then
        Classification(Some(Yellow), SizeAbove(reflection, WARM_BIG_REFLECTION))
      else Classification(raw, UnknownSize)
  }

  /**
   * The classifier never reports brown or black, and it knows the size
   * exactly when it saw a recognised colour; a known size always comes
   * with red, green, blue or yellow.
   */
  lemma OutputRange(raw: Option<Color>, reflection: int, rgb: Rgb)
    ensures Classify(raw, reflection, rgb).color !in {Some(Brown), Some(Black)}
    ensures Classify(raw, reflection, rgb).color.None? <==> raw.None?
    ensures Classify(raw, reflection, rgb).size != UnknownSize <==> raw.Some? && Recognised(raw.value)
    ensures Classify(raw, reflection, rgb).size != UnknownSize ==>
              Classify(raw, reflection, rgb).color.value in {Red, Green, Blue, Yellow}
  {
  }
}
