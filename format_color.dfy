/**
 * `formatColor` (main.py): converts a `Color` to its display name and a
 * colour name (any capitalisation) back to a `Color`.
 */
module ColorNames {

  import opened Wrappers
  import opened Parameters
  import opened Strings

  /** The Python values `formatColor` distinguishes by their type. */
  datatype PyValue = PyStr(s: string) | PyColor(c: Color) | PyNone | PyOther

  /** The attribute under which `Color` holds each colour. */
  function AttributeName(c: Color): string {
    match c
    case Black => "BLACK"
    case Blue => "BLUE"
    case Green => "GREEN"
    case Yellow => "YELLOW"
    case Red => "RED"
    case White => "WHITE"
    case Brown => "BROWN"
    case Orange => "ORANGE"
    case Purple => "PURPLE"
  }

  /** `getattr(Color, name)`: the colour held under `name`, if any. */
  function ColorAttribute(name: string): (r: Option<Color>)
    ensures r.Some? ==> AttributeName(r.value) == name
    ensures r.None? ==> forall c :: AttributeName(c) != name
  {
    if name == "BLACK" then Some(Black)
    else if name == "BLUE" then Some(Blue)
    else if name == "GREEN" then Some(Green)
    else if name == "YELLOW" then Some(Yellow)
    else if name == "RED" then Some(Red)
    else if name == "WHITE" then Some(White)
    else if name == "BROWN" then Some(Brown)
    else if name == "ORANGE" then Some(Orange)
    else if name == "PURPLE" then Some(Purple)
    else None
  }

  /** The text `formatColor` gives for a colour. */
  function DisplayName(c: Color): (txt: string)
    ensures Upper(txt) == AttributeName(c)
  {
    match c
    case Red => "Red"
    case Blue => "Blue"
    case Green => "Green"
    case Yellow => "Yellow"
    case Brown => "Brown"
    case Black => "Black"
    case White => "White"
    case Orange => "Orange"
    case Purple => "Purple"
  }

  /**
   * `formatColor(color)`: a string becomes the colour it names (or `None`),
   * a colour becomes its name, anything else becomes the text "Error".
   */
  function FormatColor(v: PyValue): (r: PyValue)
    ensures v.PyStr? ==> r.PyColor? || r.PyNone?
    ensures v.PyColor? ==> r.PyStr? && r.s != "Error"
    ensures !v.PyStr? && !v.PyColor? ==> r == PyStr("Error")
  {
    match v
    case PyStr(s) =>
      (match ColorAttribute(Upper(s))
       case Some(c) => PyColor(c)
       case None => PyNone)
    case PyColor(c) => PyStr(DisplayName(c))
    case _ => PyStr("Error")
  }

  /** No two colours share an attribute name. */
  lemma AttributeNameInjective(c: Color, d: Color)
    ensures AttributeName(c) == AttributeName(d) ==> c == d
  {
  }

  /** Reading a colour's attribute name gives that colour. */
  lemma AttributeReadsBack(c: Color)
    ensures ColorAttribute(AttributeName(c)) == Some(c)
  {
    var r := ColorAttribute(AttributeName(c));
    assert r.Some?;
    AttributeNameInjective(r.value, c);
  }

  /** Naming a colour and reading the name back gives the colour again. */
  lemma RoundTrip(c: Color)
    ensures FormatColor(FormatColor(PyColor(c))) == PyColor(c)
  {
    AttributeReadsBack(c);
  }

  /** A string is read as colour `c` exactly when it spells `c`'s name, ignoring case. */
  lemma NameReadsAs(s: string, c: Color)
    ensures FormatColor(PyStr(s)) == PyColor(c) <==> Upper(s) == Upper(DisplayName(c))
  {
    AttributeReadsBack(c);
  }

  /** A string that spells no colour's name gives `None`, and only such a string does. */
  lemma UnknownNameIsNone(s: string)
    ensures FormatColor(PyStr(s)) == PyNone <==> forall c :: Upper(s) != Upper(DisplayName(c))
  {
    forall c ensures Upper(DisplayName(c)) == AttributeName(c) {
    }
  }

  /** Reading a string and naming the result gives back the string, up to case. */
  lemma ReadThenName(s: string)
    requires FormatColor(PyStr(s)).PyColor?
    ensures FormatColor(FormatColor(PyStr(s))).PyStr?
    ensures Upper(FormatColor(FormatColor(PyStr(s))).s) == Upper(s)
  {
  }
}
