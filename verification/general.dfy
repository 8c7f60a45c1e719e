/** Constants and records shared by the firmware (include/General.h), and the
    C integer conversions that the firmware's arithmetic goes through. */
module General {

  /** C fixed-width integers, as subsets of the unbounded integers. */
  type u8 = x: int | 0 <= x < 0x100
  type u16 = x: int | 0 <= x < 0x1_0000
  type u32 = x: int | 0 <= x < 0x1_0000_0000

  /** Assignment of an int to an unsigned C variable keeps the value modulo 2^n. */
  function ToU8(x: int): u8 { x % 0x100 }
  function ToU16(x: int): u16 { x % 0x1_0000 }
  function ToU32(x: int): u32 { x % 0x1_0000_0000 }

  /** C division on int, which truncates toward zero (unlike Dafny's Euclidean
      `/`). Its contract is the C standard's (section 6.5.5 of ISO/IEC 9899):
      the remainder `a - q * b` is zero or has the sign of `a`, and is smaller
      than `b` in magnitude, which determines `q` uniquely. */
  function CDiv(a: int, b: int): (q: int)
    requires b != 0
    ensures var r := a - q * b;
            && (r == 0 || (r < 0) == (a < 0))
            && (if r < 0 then -r else r) < (if b < 0 then -b else b)
  {
    var A, B := (if a < 0 then -a else a), (if b < 0 then -b else b);
    var m, R := A / B, A % B;
    assert A == m * B + R && 0 <= R < B;
    if (a < 0) == (b < 0) then
      assert m * b == if a < 0 then -(m * B) else m * B;
      m
    else
      assert (-m) * b == if a < 0 then -(m * B) else m * B;
      -m
  }

  // GPIO pins
  const ButtonA: nat := 5
  const ButtonB: nat := 6
  const GreenLed: nat := 11
  const BlueLed: nat := 12
  const RedLed: nat := 13
  const JoystickButton: nat := 22

  // Joystick ADC range
  const LowestAxisValue: int := 16
  const HighestAxisValue: int := 4082

  // Alert thresholds
  const TempNormalMax: int := 30
  const TempMediumMax: int := 40
  const HumidityNormalMax: int := 60
  const HumidityMediumMax: int := 80
  const BrightnessNormalMax: int := 70
  const BrightnessMediumMax: int := 90

  /** A matrix colour. The firmware declares each component `int8_t`; the
      model keeps the component's eight stored bits, which is all that
      reading it into an `unsigned char` uses. */
  datatype RGB = RGB(red: bv8, green: bv8, blue: bv8)

  /** The three simulated measurements. */
  datatype Channel = Temperature | Humidity | Brightness

  /** The button that toggles whether a channel follows the joystick. */
  function ButtonPin(ch: Channel): nat
  {
    match ch
    case Temperature => ButtonA
    case Humidity => ButtonB
    case Brightness => JoystickButton
  }

  /** Upper bound of the normal band of a channel. */
  function NormalMax(ch: Channel): int
  {
    match ch
    case Temperature => TempNormalMax
    case Humidity => HumidityNormalMax
    case Brightness => BrightnessNormalMax
  }

  /** Upper bound of the warning band of a channel. */
  function MediumMax(ch: Channel): int
  {
    match ch
    case Temperature => TempMediumMax
    case Humidity => HumidityMediumMax
    case Brightness => BrightnessMediumMax
  }

  /** Each channel's normal band ends strictly below its warning band, so that
      every band holds some byte value. */
  lemma ThresholdsSeparateBands(ch: Channel)
    ensures 0 <= NormalMax(ch) < MediumMax(ch) < 0xFF
  {
  }

  /** The axis span is wider than every scale factor applied to it. */
  lemma AxisSpanExceedsScales()
    ensures LowestAxisValue < HighestAxisValue
    ensures HighestAxisValue - LowestAxisValue == 4066
    ensures HighestAxisValue - LowestAxisValue > 100
  {
  }

  /** The three buttons sit on distinct pins, so a pin names at most one channel. */
  lemma ButtonPinsDistinct(ch1: Channel, ch2: Channel)
    ensures ButtonPin(ch1) == ButtonPin(ch2) <==> ch1 == ch2
  {
  }

  /** The status LEDs sit on distinct pins, disjoint from the buttons. */
  lemma StatusPinsDistinct(ch: Channel)
    ensures RedLed != GreenLed && GreenLed != BlueLed && RedLed != BlueLed
    ensures ButtonPin(ch) !in {RedLed, GreenLed, BlueLed}
  {
  }
}
