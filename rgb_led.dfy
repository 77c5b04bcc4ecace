/** The tri-colour status LED of rgb_led.c: three GPIO pins, every call writes
    all three. */
module RgbLed {

  const ColorGreen: int := 0
  const ColorRed: int := 1
  const ColorOrange: int := 2

  /** Levels of the red, green and blue pins. */
  datatype Rgb = Rgb(red: bool, green: bool, blue: bool)

  const Dark: Rgb := Rgb(false, false, false)

  /** RGB_Set(color): the pin levels it leaves, whatever they were before. */
  function LedFor(color: int): (c: Rgb)
    ensures !c.blue
    ensures c.green <==> color == ColorGreen || color == ColorOrange
    ensures c.red <==> color == ColorRed || color == ColorOrange
  {
    if color == ColorGreen then Rgb(false, true, false)
    else if color == ColorRed then Rgb(true, false, false)
    else if color == ColorOrange then Rgb(true, true, false)
    else Dark
  }

  /** The three pins as an object. */
  class Led {
    var red: bool
    var green: bool
    var blue: bool

    function Model(): Rgb
      reads this
    {
      Rgb(red, green, blue)
    }

    constructor ()
      ensures Model() == Dark
    {
      red, green, blue := false, false, false;
    }

    /** RGB_Off: all three pins reset. */
    method Off()
      modifies this
      ensures Model() == Dark
    {
      red := false;
      green := false;
      blue := false;
    }

    /** RGB_Init: the same as RGB_Off. */
    method Init()
      modifies this
      ensures Model() == Dark
    {
      Off();
    }

    /** RGB_Set. */
    method Set(color: int)
      modifies this
      ensures Model() == LedFor(color)
    {
      if color == ColorGreen {
        green := true;
        red := false;
        blue := false;
      } else if color == ColorRed {
        green := false;
        red := true;
        blue := false;
      } else if color == ColorOrange {
        green := true;
        red := true;
        blue := false;
      } else {
        Off();
      }
    }
  }
}
